/** What cleaning, removing a segment and leaving attain when their process is left to
    run. */
module DirectiveDrops {
  import opened SegmentModel
  import opened SegmentInvariant
  import opened SegmentLists
  import opened SegmentTheorems
  import opened SegmentAlone
  import opened SegmentGiveUp
  import opened DirectiveModel
  import opened DirectiveInvariant
  import opened DirectiveSteps
  import opened DirectiveTheorems
  import opened DirectiveAlone

  // ----- removing a segment -----

  lemma DiscardSteps(w: Wide, p: Proc, n: int)
    requires p in w.locals && p in w.core.procs && w.core.procs[p].pc == Idle && n in w.core.procs[p].table
    ensures w.locals[p].act == Quiet ==> WideStep(w, p, Discard(n)) == Follow(w, p, RemoveShared(n), Discarding(n))
    ensures w.locals[p].act == Discarding(n) ==> WideStep(w, p, Discard(n)) == Follow(w, p, SegmentModel.Detach(n), Quiet)
  {
    hide Follow;
  }

  lemma DiscardRemoves(w: Wide, p: Proc, n: int) returns (k: nat, u: Wide)
    requires WideReachable(w) && Resting(w, p) && CanLock(w.core, p) && n in w.core.procs[p].table
    ensures Reaches(w, u, p, Discard(n), k) && p in u.locals && p in u.core.procs
    ensures u.locals[p].act == Discarding(n) && u.core.procs[p].pc == Idle && u.core.owner == w.core.owner && u.core.level == w.core.level
    ensures
      var o := w.core.procs[p].table[n];
      InTable(u.core.procs[p].table, n, o) && o in u.core.meta && u.core.fchain == Without(w.core.fchain, o) && u.core.rev == RevCut(w.core, o)
  {
    hide WideReachable, Inv, TypeOk, Reachable, WideStep, Works, Step, Follow, Reaches, Run, Without, Walk, WalkBack;
    WideReachableCore(w);
    var s;
    k, s := RemoveAlone(w.core, p, n);
    DiscardSteps(w, p, n);
    u := Operation(w, s, p, Discard(n), RemoveShared(n), Discarding(n), k);
    k := k + 1;
  }

  lemma DiscardLeaves(w: Wide, p: Proc, n: int) returns (k: nat, u: Wide)
    requires WideReachable(w) && p in w.locals && p in w.core.procs && w.core.procs[p].pc == Idle && w.locals[p].act == Discarding(n)
    requires CanLock(w.core, p) && n in w.core.procs[p].table
    ensures Reaches(w, u, p, Discard(n), k) && Resting(u, p) && u.core.owner == w.core.owner && u.core.level == w.core.level
    ensures n !in u.core.procs[p].table && Detached(w.core, u.core, p, w.core.procs[p].table[n])
  {
    hide WideReachable, Inv, TypeOk, Reachable, WideStep, Works, Step, Follow, Reaches, Run, Detached, CutsOut;
    WideReachableCore(w);
    var s;
    k, s := DetachAlone(w.core, p, n);
    DiscardSteps(w, p, n);
    u := Operation(w, s, p, Discard(n), SegmentModel.Detach(n), Quiet, k);
    k := k + 1;
  }

  // The segment is in nothing of the process any more.
  ghost predicate Gone(w: Wide, t: Wide, p: Proc, n: int, o: Obj) {
    && Resting(t, p) && n !in t.core.procs[p].table && o !in t.locals[p].order
    && o in t.core.meta && p !in t.core.meta[o].trackers
    && t.core.fchain == Without(w.core.fchain, o) && t.core.rev == RevCut(w.core, o)
    && t.core.owner == w.core.owner && t.core.level == w.core.level
  }

  lemma DiscardEnds(w: Wide, u: Wide, t: Wide, p: Proc, n: int)
    requires WideReachable(w) && WideReachable(u) && WideReachable(t) && Resting(t, p)
    requires p in u.core.procs && n in u.core.procs[p].table && n !in t.core.procs[p].table
    requires
      var o := u.core.procs[p].table[n];
      u.core.fchain == Without(w.core.fchain, o) && u.core.rev == RevCut(w.core, o) && Detached(u.core, t.core, p, o)
    requires t.core.owner == w.core.owner && t.core.level == w.core.level
    ensures Gone(w, t, p, n, u.core.procs[p].table[n])
  {
    hide WideReachable, WideInv, Inv, TypeOk, Detached, Without, Abreast;
    WideReachableSafe(w);
    WideReachableSafe(u);
    WideReachableSafe(t);
    CoreKeeps(w);
    CoreKeeps(u);
    CoreKeeps(t);
    var o := u.core.procs[p].table[n];
    NumberOf(u.core, p, n);
    GoneFromList(w, u, t, p, o);
    OffOrder(t, p, o, n);
  }

  // A removal that runs alone takes the segment out of the shared list, if it is there,
  // and leaves the process without it, counted in it no more; the lock is as before.
  lemma DiscardAlone(w: Wide, p: Proc, n: int) returns (k: nat)
    requires WideReachable(w) && Resting(w, p) && CanLock(w.core, p) && n in w.core.procs[p].table
    ensures
      var t, o := WideRun(w, WideTurns(p, Discard(n), k)), w.core.procs[p].table[n];
      && Resting(t, p) && n !in t.core.procs[p].table && o !in t.locals[p].order
      && o in t.core.meta && p !in t.core.meta[o].trackers
      && t.core.fchain == Without(w.core.fchain, o) && t.core.rev == RevCut(w.core, o)
      && t.core.owner == w.core.owner && t.core.level == w.core.level && WideReachable(t)
  {
    hide WideReachable, WideRun, Reaches, Detached, Without;
    var i, u := DiscardRemoves(w, p, n);
    ReachesThere(w, u, p, Discard(n), i);
    var j, t := DiscardLeaves(u, p, n);
    Onward(w, u, t, p, Discard(n), i, j);
    k := i + j;
    ReachesThere(w, t, p, Discard(n), k);
    DiscardEnds(w, u, t, p, n);
  }

  lemma NumberOf(s: State, p: Proc, n: int)
    requires Inv(s) && p in s.procs && n in s.procs[p].table
    ensures var o := s.procs[p].table[n]; o in s.meta && s.meta[o].num == n
  {
    hide Names, Counts, Places, Procs, Held, LedgerOk, LockOk, ListOk;
    assert EntryOk(s.meta, p, n, s.procs[p].table[n]);
  }

  lemma GoneFromList(w: Wide, u: Wide, t: Wide, p: Proc, o: Obj)
    requires Inv(w.core) && Inv(u.core) && u.core.fchain == Without(w.core.fchain, o) && Detached(u.core, t.core, p, o)
    requires u.core.rev == RevCut(w.core, o)
    ensures t.core.rev == RevCut(w.core, o) && t.core.fchain == Without(w.core.fchain, o) && o in t.core.meta && p !in t.core.meta[o].trackers
    ensures o in u.core.meta && t.core.meta[o].num == u.core.meta[o].num
  {
    hide Inv, Without, NoDup;
    NoDupChains(w.core);
    WithoutMembers(w.core.fchain, o);
    WithoutNone(u.core.fchain, o);
  }

  // What is not in the table under its number is not in the list.
  lemma OffOrder(w: Wide, p: Proc, o: Obj, n: int)
    requires p in w.locals && p in w.core.procs && Abreast(w, p) && o in w.core.meta && w.core.meta[o].num == n
    requires n !in w.core.procs[p].table
    ensures o !in w.locals[p].order
  {
    hide Claim, TipOk, ActOk, NoDup;
  }

  // ----- leaving -----

  lemma LeaveSteps(w: Wide, p: Proc)
    requires p in w.locals && p in w.core.procs && w.core.procs[p].pc == Idle && w.locals[p].act == Leaving
    ensures
      var order := w.locals[p].order;
      WideStep(w, p, Leave) == if order == [] then w.(locals := w.locals[p := NEWCOMER])
                               else Follow(w, p, SegmentModel.Detach(Number(w.core, order[0])), Leaving)
  {
    hide Follow;
  }

  lemma {:induction false} LeaveEnds(w: Wide, p: Proc) returns (k: nat, t: Wide)
    requires WideReachable(w) && p in w.locals && p in w.core.procs && w.core.procs[p].pc == Idle && CanLock(w.core, p)
    requires w.locals[p].act == Leaving
    ensures Reaches(w, t, p, Leave, k) && p in t.locals && t.locals[p] == NEWCOMER && p in t.core.procs && t.core.procs[p] == Process(Idle, map[])
    ensures t.core.owner == w.core.owner && t.core.level == w.core.level
    decreases |w.core.fchain|, |w.core.procs[p].table|
  {
    hide WideReachable, WideInv, Inv, TypeOk, Reachable, WideStep, Works, Step, Follow, Reaches, Run, Detached, CutsOut;
    WideReachableSafe(w);
    CoreKeeps(w);
    LeaveSteps(w, p);
    var order := w.locals[p].order;
    if order == [] {
      t := WideStep(w, p, Leave);
      NoTurn(t, p, Leave);
      StepThen(w, t, p, Leave, 0);
      k := 1;
      NothingTracked(w, p);
    } else {
      FirstTracked(w, p);
      var n := Number(w.core, order[0]);
      WideReachableCore(w);
      var j, r := DetachAlone(w.core, p, n);
      var u := Operation(w, r, p, Leave, SegmentModel.Detach(n), Leaving, j);
      ReachesThere(w, u, p, Leave, j + 1);
      LessLeft(w.core, u.core, p, n);
      var i;
      i, t := LeaveEnds(u, p);
      k := j + 1 + i;
      Onward(w, u, t, p, Leave, j + 1, i);
    }
  }

  lemma FirstTracked(w: Wide, p: Proc)
    requires p in w.locals && p in w.core.procs && Abreast(w, p) && w.locals[p].order != []
    ensures var o := w.locals[p].order[0]; o in w.core.meta && InTable(w.core.procs[p].table, Number(w.core, o), o)
  {
    hide Claim, TipOk, ActOk;
    FrontTracked(w.core, p, w.locals[p].order);
  }

  lemma NothingTracked(w: Wide, p: Proc)
    requires p in w.locals && p in w.core.procs && Abreast(w, p) && w.locals[p].order == []
    ensures w.core.procs[p].table == map[]
  {
    hide Claim, TipOk, ActOk, NoDup;
    var table := w.core.procs[p].table;
    assert forall n :: n !in table;
  }

  // A detach shortens the shared list or the table.
  lemma LessLeft(s: State, t: State, p: Proc, n: int)
    requires Inv(s) && p in s.procs && p in t.procs && n in s.procs[p].table && Detached(s, t, p, s.procs[p].table[n])
    requires t.procs[p].table == s.procs[p].table - {n} || CutsOut(s, p, s.procs[p].table[n])
    ensures |t.fchain| < |s.fchain| || (|t.fchain| == |s.fchain| && |t.procs[p].table| < |s.procs[p].table|)
  {
    hide Inv, Without, NoDup;
    var o, table := s.procs[p].table[n], s.procs[p].table;
    NoDupChains(s);
    WithoutMembers(s.fchain, o);
    if o !in s.fchain {
      WithoutNone(s.fchain, o);
    }
    assert (table - {n}).Keys == table.Keys - {n};
  }

  // A process that leaves, alone, ends with nothing in its list or its table and is
  // counted in no segment.
  lemma LeaveAlone(w: Wide, p: Proc) returns (k: nat)
    requires WideReachable(w) && Resting(w, p) && CanLock(w.core, p)
    ensures
      var t := WideRun(w, WideTurns(p, Leave, k));
      && p in t.locals && t.locals[p] == NEWCOMER && p in t.core.procs && t.core.procs[p] == Process(Idle, map[])
      && (forall o :: o in t.core.meta ==> p !in t.core.meta[o].trackers)
      && t.core.owner == w.core.owner && t.core.level == w.core.level
  {
    hide WideReachable, WideInv, WideRun, Inv, TypeOk, Reachable, Reaches, WideStep;
    var u := WideStep(w, p, Leave);
    LeaveStarts(w, p);
    NoTurn(u, p, Leave);
    StepThen(w, u, p, Leave, 0);
    ReachesThere(w, u, p, Leave, 1);
    var t;
    k, t := LeaveEnds(u, p);
    StepThen(w, t, p, Leave, k);
    k := k + 1;
    ReachesThere(w, t, p, Leave, k);
    WideReachableSafe(t);
    CoreKeeps(t);
    forall o | o in t.core.meta ensures p !in t.core.meta[o].trackers {
      HoldsNone(t.core, p, o);
    }
  }

  lemma LeaveStarts(w: Wide, p: Proc)
    requires Resting(w, p)
    ensures WideStep(w, p, Leave) == Enact(w, p, Leaving)
  {}

  lemma HoldsNone(s: State, p: Proc, o: Obj)
    requires Inv(s) && p in s.procs && s.procs[p] == Process(Idle, map[]) && o in s.meta
    ensures p !in s.meta[o].trackers
  {
    hide Names, Counts, Places, Procs, Tables, LedgerOk, LockOk, ListOk;
    assert HeldOk(o, s.meta[o], p, s.procs[p]);
  }
}
