/** What cleaning attains when its process is left to run. */
module DirectiveClean {
  import opened SegmentModel
  import opened SegmentInvariant
  import opened SegmentLists
  import opened SegmentAccounts
  import opened SegmentRank
  import opened SegmentAlone
  import opened DirectiveModel
  import opened DirectiveInvariant
  import opened DirectiveSafety
  import opened DirectiveDeeds
  import opened DirectiveTheorems
  import opened DirectiveAlone

  // The segments of a list that are not invalid, in their order.
  function Lasting(meta: map<Obj, Meta>, order: seq<Obj>): seq<Obj> {
    if order == [] then []
    else (if order[0] in meta && meta[order[0]].invalid then [] else [order[0]]) + Lasting(meta, order[1..])
  }

  lemma {:induction false} LastingWithout(meta: map<Obj, Meta>, c: seq<Obj>, o: Obj)
    requires o in meta && meta[o].invalid
    ensures Lasting(meta, Without(c, o)) == Lasting(meta, c)
  {
    if c != [] && c[0] != o {
      LastingWithout(meta, c[1..], o);
      assert Without(c, o)[1..] == Without(c[1..], o);
    }
  }

  lemma {:induction false} LastingAll(meta: map<Obj, Meta>, c: seq<Obj>)
    requires forall o :: o in c && o in meta ==> !meta[o].invalid
    ensures Lasting(meta, c) == c
  {
    if c != [] {
      assert c[0] in c;
      LastingAll(meta, c[1..]);
      assert c == [c[0]] + c[1..];
    }
  }

  predicate ValidTo(meta: map<Obj, Meta>, order: seq<Obj>, i: nat) {
    i <= |order| && forall j :: 0 <= j < i && order[j] in meta ==> !meta[order[j]].invalid
  }

  // A cleaning that began with the list `order` and the shared memory `s`.
  ghost predicate InClean(w: Wide, p: Proc, order: seq<Obj>, s: State) {
    && p in w.locals && p in w.core.procs
    && w.core.fchain == s.fchain && w.core.owner == s.owner && w.core.level == s.level && SameMarks(s.meta, w.core.meta)
    && Dropped(w.core, w.core.procs[p].pc)
    && (forall o :: o in w.locals[p].order ==> o in s.meta)
    && Lasting(s.meta, w.locals[p].order) == Lasting(s.meta, order)
    && match w.locals[p].act
       case Cleaning(i) => ValidTo(s.meta, w.locals[p].order, i)
       case Quiet => w.core.procs[p].pc == Idle && ValidTo(s.meta, w.locals[p].order, |w.locals[p].order|)
       case _ => false
  }

  function CleanCount(l: Local): int {
    if l.act.Cleaning? then |l.order| + 1 - l.act.i else 0
  }

  ghost predicate Nearer(w: Wide, t: Wide, p: Proc) {
    && p in w.locals && p in t.locals && p in w.core.procs && p in t.core.procs
    && var a, b := CleanCount(w.locals[p]), CleanCount(t.locals[p]);
       0 <= b && (b < a || (b == a && 0 <= StageRank(t.core.meta, t.core.procs[p].pc, 0) < StageRank(w.core.meta, w.core.procs[p].pc, 0)))
  }

  lemma CleanBusy(w: Wide, p: Proc, order: seq<Obj>, s: State)
    requires WideInv(w) && InClean(w, p, order, s) && w.core.procs[p].pc != Idle
    ensures var t := WideStep(w, p, Clean); InClean(t, p, order, s) && Nearer(w, t, p)
  {
    hide Inv, TypeOk, Accounted, Shared, Abreast, Step, Dropped, StageRank, Lasting;
    CoreKeeps(w);
    TurnIs(w.core, p, Lock);
    DropSteps(w.core, p);
    DropsStay(w.core, p);
    RankLow(Step(w.core, p, Lock), p);
  }

  lemma DropsStay(s: State, p: Proc)
    requires p in s.procs && Dropped(s, s.procs[p].pc) && s.procs[p].pc != Idle
    ensures forall order :: OrderAfter(s, p, Lock, order) == order
  {}

  lemma RankLow(s: State, p: Proc)
    requires p in s.procs && Dropped(s, s.procs[p].pc)
    ensures 0 <= StageRank(s.meta, s.procs[p].pc, 0)
  {}

  lemma CleanIdle(w: Wide, p: Proc, i: nat, order: seq<Obj>, s: State)
    requires WideInv(w) && InClean(w, p, order, s) && w.core.procs[p].pc == Idle && w.locals[p].act == Cleaning(i)
    ensures var t := WideStep(w, p, Clean); InClean(t, p, order, s) && Nearer(w, t, p)
  {
    hide Inv, TypeOk, Accounted, Shared, Abreast, Step, StageRank, Lasting, Without, NoDup;
    CoreKeeps(w);
    var u, l := w.core, w.locals[p];
    if i < |l.order| && l.order[i] in u.meta && u.meta[l.order[i]].invalid {
      var o := l.order[i];
      TrackedAt(w, p, i);
      var n := Number(u, o);
      DetachGives(u, p, n);
      TurnIs(u, p, SegmentModel.Detach(n));
      StepIsIdle(u, p, SegmentModel.Detach(n));
      NoDupOrder(w, p);
      WithoutAt(l.order, i);
      WithoutMembers(l.order, o);
      LastingWithout(s.meta, l.order, o);
    }
  }

  lemma TrackedAt(w: Wide, p: Proc, i: nat)
    requires p in w.locals && p in w.core.procs && Abreast(w, p) && i < |w.locals[p].order|
    ensures var o := w.locals[p].order[i]; o in w.core.meta && InTable(w.core.procs[p].table, Number(w.core, o), o)
  {
    hide Claim, TipOk, ActOk, NoDup;
    assert w.locals[p].order[i] in w.locals[p].order;
  }

  lemma {:induction false} CleanEnds(w: Wide, p: Proc, order: seq<Obj>, s: State) returns (n: nat, t: Wide)
    requires WideInv(w) && InClean(w, p, order, s)
    ensures Reaches(w, t, p, Clean, n) && InClean(t, p, order, s) && t.locals[p].act == Quiet
    decreases CleanCount(w.locals[p]), StageRank(w.core.meta, w.core.procs[p].pc, 0)
  {
    hide WideInv, WideStep, Dropped, Reaches, StageRank, ValidTo, Lasting, SameMarks;
    if w.locals[p].act == Quiet {
      NoTurn(w, p, Clean);
      n, t := 0, w;
    } else {
      if w.core.procs[p].pc != Idle {
        CleanBusy(w, p, order, s);
      } else {
        CleanIdle(w, p, w.locals[p].act.i, order, s);
      }
      WideKeeps(w, p, Clean);
      n, t := CleanEnds(WideStep(w, p, Clean), p, order, s);
      StepThen(w, t, p, Clean, n);
      n := n + 1;
    }
  }

  // A cleaning that runs alone leaves in the list exactly what was not invalid, in its
  // order, and neither needs the lock nor changes the shared list.
  lemma CleanAlone(w: Wide, p: Proc) returns (n: nat)
    requires WideReachable(w) && Resting(w, p)
    ensures
      var t := WideRun(w, WideTurns(p, Clean, n));
      && Resting(t, p) && t.locals[p].order == Lasting(w.core.meta, w.locals[p].order)
      && t.core.fchain == w.core.fchain && t.core.owner == w.core.owner && t.core.level == w.core.level
  {
    hide WideReachable, WideInv, WideRun, Inv, Reaches;
    WideReachableSafe(w);
    CoreKeeps(w);
    var l := w.locals[p];
    WideKeeps(w, p, Clean);
    var u := WideStep(w, p, Clean);
    assert u == Enact(w, p, Cleaning(0));
    CleanStarts(w, p);
    var t;
    n, t := CleanEnds(u, p, l.order, w.core);
    StepThen(w, t, p, Clean, n);
    n := n + 1;
    ReachesThere(w, t, p, Clean, n);
    LastingAll(w.core.meta, t.locals[p].order);
  }

  lemma CleanStarts(w: Wide, p: Proc)
    requires Resting(w, p) && Abreast(w, p)
    ensures InClean(Enact(w, p, Cleaning(0)), p, w.locals[p].order, w.core)
  {
    hide Claim, TipOk, ActOk, NoDup, Lasting;
  }
}
