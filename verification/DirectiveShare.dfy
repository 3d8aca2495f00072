/** What one process shares and another one sees. */
module DirectiveShare {
  import opened Options
  import opened SegmentModel
  import opened SegmentInvariant
  import opened SegmentAccounts
  import opened SegmentTheorems
  import opened SegmentAlone
  import opened DirectiveModel
  import opened DirectiveFrames
  import opened DirectiveInvariant
  import opened DirectiveTheorems
  import opened DirectiveAlone
  import opened DirectiveDrops

  // A process between directives that creates a segment and runs alone ends with it the
  // last of the shared list, and in its own list and table.
  lemma ShareAlone(w: Wide, p: Proc, size: nat, free: int) returns (k: nat, t: Wide, o: Obj)
    requires WideReachable(w) && Resting(w, p) && CanLock(w.core, p)
    requires w.core.total + size <= w.core.maxSize && w.core.numShared < w.core.maxSegs && 0 <= free <= SEG_MAX && free !in w.core.names
    ensures t == WideRun(w, WideTurns(p, Own(Create(size)), k)) && WideReachable(t)
    ensures Resting(t, p) && Created(w.core, t.core, p, o, size) && o in t.locals[p].order
    ensures t.core.owner == w.core.owner && t.core.level == w.core.level
  {
    hide WideReachable, WideRun, WideInv, TypeOk, Reachable, Inv, Step, Works, Created, Walk, WalkBack, Reaches, WideStep, Follow, Run;
    WideReachableCore(w);
    var n, s;
    n, s, o := CreateAlone(w.core, p, size, free);
    CreateSteps(w, p, size);
    t := Operation(w, s, p, Own(Create(size)), Create(size), Quiet, n);
    k := n + 1;
    ReachesThere(w, t, p, Own(Create(size)), k);
    WideReachableSafe(t);
    CoreKeeps(t);
    CreatedInOrder(w.core, t, p, o, size);
  }

  lemma CreateSteps(w: Wide, p: Proc, size: nat)
    requires Resting(w, p)
    ensures WideStep(w, p, Own(Create(size))) == Follow(w, p, Create(size), Quiet)
  {
    hide Follow;
  }

  lemma CreatedInOrder(s: State, t: Wide, p: Proc, o: Obj, size: nat)
    requires p in t.locals && p in t.core.procs && Abreast(t, p) && Created(s, t.core, p, o, size)
    ensures o in t.locals[p].order
  {
    hide Claim, TipOk, ActOk, NoDup;
  }

  // ----- other processes -----

  lemma OthersStep(w: Wide, p: Proc, d: Deed, q: Proc)
    requires WideInv(w) && q != p && q in w.locals && q in w.core.procs
    ensures var t := WideStep(w, p, d); q in t.locals && t.locals[q] == w.locals[q] && q in t.core.procs && t.core.procs[q] == w.core.procs[q]
  {
    hide Inv, TypeOk, Accounted, Shared, Abreast, Turn, WideStep;
    CoreKeeps(w);
    LocalsStep(w, p, d, q);
    StepTurns(w, p, d);
    if WideStep(w, p, d).core != w.core {
      var c :| WideStep(w, p, d).core == Turn(w.core, p, c);
      ProcsTurn(w.core, p, c, q);
    }
  }

  lemma LocalsStep(w: Wide, p: Proc, d: Deed, q: Proc)
    requires q != p && q in w.locals
    ensures var t := WideStep(w, p, d); q in t.locals && t.locals[q] == w.locals[q]
  {
    hide Turn, OrderAfter, CanLock, MoveLast, Number;
  }

  lemma ProcsTurn(s: State, p: Proc, c: Choice, q: Proc)
    requires Inv(s) && TypeOk(s) && q != p && q in s.procs
    ensures var t := Turn(s, p, c); q in t.procs && t.procs[q] == s.procs[q]
  {
    hide Inv, TypeOk, Step, WindowMoves;
    if p in s.procs {
      StepMoves(s, p, c);
    }
  }

  lemma {:induction false} OthersStay(w: Wide, p: Proc, d: Deed, q: Proc, k: nat)
    requires WideInv(w) && q != p && q in w.locals && q in w.core.procs
    ensures
      var t := WideRun(w, WideTurns(p, d, k));
      WideInv(t) && q in t.locals && t.locals[q] == w.locals[q] && q in t.core.procs && t.core.procs[q] == w.core.procs[q]
    decreases k
  {
    hide WideInv, WideStep;
    if k > 0 {
      OthersStay(w, p, d, q, k - 1);
      assert WideTurns(p, d, k)[..k - 1] == WideTurns(p, d, k - 1);
      var u := WideRun(w, WideTurns(p, d, k - 1));
      OthersStep(u, p, d, q);
      WideKeeps(u, p, d);
    }
  }

  // A process whose list was brought in line less than 2^64 - 1 changes ago sees that
  // the revision has changed.
  lemma SeesChange(w: Wide, t: Wide, q: Proc)
    requires WideInv(w) && q in w.locals && q in w.core.procs && t.core.rev == NextRev(w.core.rev)
    requires q in t.locals && t.locals[q] == w.locals[q] && w.bumps + 1 - w.locals[q].at < REV_MAX
    ensures t.locals[q].seen != t.core.rev
  {
    hide Inv, TypeOk, Accounted, OrderOk, Claim, TipOk, ActOk, AgreedOk;
    CoreKeeps(w);
    assert Abreast(w, q);
    RevNext(w.bumps);
    RevTells(w.locals[q].at, w.bumps + 1);
    SomeRest(w.bumps + 1 - w.locals[q].at);
  }

  lemma SomeRest(d: nat)
    requires 0 < d < REV_MAX
    ensures d % REV_MAX != 0
  {}

  // What one process shares the next one to update finds: after `p` has created a
  // segment and `q` has then updated, each running alone, `q` tracks what was shared
  // before and behind it the new segment, and nothing else.
  lemma SharedThenSeen(w: Wide, p: Proc, q: Proc, size: nat, free: int) returns (k: nat, n: nat, o: Obj)
    requires WideReachable(w) && Resting(w, p) && Resting(w, q) && p != q && w.core.owner == None
    requires w.core.total + size <= w.core.maxSize && w.core.numShared < w.core.maxSegs && 0 <= free <= SEG_MAX && free !in w.core.names
    requires w.bumps + 1 - w.locals[q].at < REV_MAX
    ensures
      var t := WideRun(w, WideTurns(p, Own(Create(size)), k) + WideTurns(q, UpdateAll, n));
      && o !in w.core.meta && Resting(t, q) && t.locals[q].seen == t.core.rev && t.core.owner == None
      && t.locals[q].order == w.core.fchain + [o] && OrderOk(t.core.meta, t.core.procs[q].table, t.locals[q].order)
  {
    hide WideReachable, WideRun, WideInv, Inv, OrderOk;
    var u;
    k, u, o := ShareAlone(w, p, size, free);
    WideReachableSafe(w);
    OthersStay(w, p, Own(Create(size)), q, k);
    SeesChange(w, u, q);
    n := UpdateAllAlone(u, q);
    WideConcat(w, WideTurns(p, Own(Create(size)), k), WideTurns(q, UpdateAll, n));
  }

  // And what one process removes the next one to update does not track any more.
  lemma RemovedThenGone(w: Wide, p: Proc, q: Proc, n: int) returns (k: nat, m: nat)
    requires WideReachable(w) && Resting(w, p) && Resting(w, q) && p != q && w.core.owner == None
    requires n in w.core.procs[p].table && w.core.procs[p].table[n] in w.core.fchain
    requires w.bumps + 1 - w.locals[q].at < REV_MAX
    ensures
      var t := WideRun(w, WideTurns(p, Discard(n), k) + WideTurns(q, UpdateAll, m));
      && Resting(t, q) && t.locals[q].seen == t.core.rev && t.core.owner == None
      && t.locals[q].order == Without(w.core.fchain, w.core.procs[p].table[n]) && OrderOk(t.core.meta, t.core.procs[q].table, t.locals[q].order)
  {
    hide WideReachable, WideRun, WideInv, Inv, OrderOk, Without;
    k := DiscardAlone(w, p, n);
    var u := WideRun(w, WideTurns(p, Discard(n), k));
    WideReachableSafe(w);
    OthersStay(w, p, Discard(n), q, k);
    SeesChange(w, u, q);
    m := UpdateAllAlone(u, q);
    WideConcat(w, WideTurns(p, Discard(n), k), WideTurns(q, UpdateAll, m));
  }
}
