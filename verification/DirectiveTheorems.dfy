/** What holds of the lists of all processes after any schedule of their directives. */
module DirectiveTheorems {
  import opened Options
  import opened SegmentModel
  import opened SegmentInvariant
  import opened SegmentAccounts
  import opened SegmentTheorems
  import opened DirectiveModel
  import opened DirectiveFrames
  import opened DirectiveInvariant
  import opened DirectiveSteps
  import opened DirectiveSafety
  import opened DirectiveActs
  import opened DirectiveDeeds

  ghost predicate WideReachable(w: Wide) {
    exists w0, run :: WideInit(w0) && w == WideRun(w0, run)
  }

  // ----- every step keeps the invariant -----

  lemma IdleStepKeeps(w: Wide, p: Proc, d: Deed)
    requires Ready(w, p)
    ensures Kept(w, WideStep(w, p, d), p)
  {
    hide Inv, TypeOk, Shared, Abreast, Kept, QuietStep, UpdateStep, LatestStep, DropStep;
    var act := w.locals[p].act;
    if act.Quiet? {
      QuietKeeps(w, p, d);
    } else if Updating(act) {
      UpdateKeeps(w, p);
    } else if act.Cleaning? {
      DropSame(w, p, d);
      CleanKeeps(w, p, act.i);
    } else if act.Discarding? {
      DropSame(w, p, d);
      DiscardKeeps(w, p, act.n);
    } else if act.Leaving? {
      LeaveKeeps(w, p, d);
    } else {
      LatestKeeps(w, p);
    }
  }

  // Cleaning and discarding leave no choice.
  lemma DropSame(w: Wide, p: Proc, d: Deed)
    requires p in w.locals && p in w.core.procs && (w.locals[p].act.Cleaning? || w.locals[p].act.Discarding?)
    ensures DropStep(w, p, d) == DropStep(w, p, Clean)
  {
    hide Follow;
  }

  lemma WideKeeps(w: Wide, p: Proc, d: Deed)
    requires WideInv(w)
    ensures WideInv(WideStep(w, p, d))
  {
    hide Inv, TypeOk, Accounted, Abreast, Shared, Moved, QuietStep, UpdateStep, LatestStep, DropStep, Step;
    if p in w.locals && p in w.core.procs {
      var t := WideStep(w, p, d);
      if w.core.procs[p].pc != Idle {
        BusyKeeps(w, p);
        TurnKeeps(w.core, p, Lock);
        FollowInv(w, t, p);
      } else {
        IdleStepKeeps(w, p, d);
        KeptInv(w, t, p);
      }
    }
  }

  lemma KeptInv(w: Wide, t: Wide, p: Proc)
    requires WideInv(w) && Kept(w, t, p)
    ensures WideInv(t)
  {
    hide Inv, TypeOk, Accounted, Abreast, Shared, Followed, Turn, WideInv;
    CoreKeeps(w);
    if t.core == w.core && p in w.locals && p in t.locals && t == w.(locals := w.locals[p := t.locals[p]]) && Abreast(t, p) {
      LocalInv(w, p, t.locals[p]);
    } else {
      var c :| t.core == Turn(w.core, p, c);
      TurnKeeps(w.core, p, c);
      FollowInv(w, t, p);
    }
  }

  lemma CoreKeeps(w: Wide)
    requires WideInv(w)
    ensures Inv(w.core) && Accounted(w.core) && TypeOk(w.core) && Shared(w)
    ensures forall p :: p in w.locals && p in w.core.procs ==> Abreast(w, p)
  {
    hide Inv, TypeOk, Accounted, Abreast, Shared;
  }

  lemma WideInitInv(w: Wide)
    requires WideInit(w)
    ensures WideInv(w)
  {
    hide TypeOk, Accounted, Inv, Abreast;
    InitInv(w.core);
    InitAccounted(w.core);
    InvTypes(w.core);
    forall p | p in w.locals && p in w.core.procs ensures Abreast(w, p) {
      FirstAbreast(w, p);
    }
  }

  lemma FirstAbreast(w: Wide, p: Proc)
    requires w.bumps == 0 && w.agreed == [] && p in w.locals && p in w.core.procs
    requires w.locals[p] == NEWCOMER && w.core.procs[p] == Process(Idle, map[])
    ensures Abreast(w, p)
  {
    hide Now;
  }

  lemma {:induction false} WideRunSafe(w0: Wide, run: seq<(Proc, Deed)>)
    requires WideInit(w0)
    ensures WideInv(WideRun(w0, run))
  {
    hide WideInv, WideInit, WideStep;
    if run == [] {
      WideInitInv(w0);
    } else {
      var k := |run| - 1;
      WideRunSafe(w0, run[..k]);
      WideKeeps(WideRun(w0, run[..k]), run[k].0, run[k].1);
    }
  }

  lemma WideReachableSafe(w: Wide)
    requires WideReachable(w)
    ensures WideInv(w)
  {
    hide WideInv, WideInit, WideRun;
    var w0, run :| WideInit(w0) && w == WideRun(w0, run);
    WideRunSafe(w0, run);
  }

  // ----- directives are made of protocol steps -----

  lemma StepTurns(w: Wide, p: Proc, d: Deed)
    ensures WideStep(w, p, d).core == w.core || exists c :: WideStep(w, p, d).core == Turn(w.core, p, c)
  {
    hide Turn, OrderAfter, CanLock, Updating, GivingUp;
  }

  // Whatever holds of the protocol in every reachable state holds beside the
  // directives.
  lemma {:induction false} Projects(w0: Wide, run: seq<(Proc, Deed)>) returns (sched: seq<(Proc, Choice)>)
    ensures WideRun(w0, run).core == Run(w0.core, sched)
  {
    hide Turn, WideStep;
    if run == [] {
      sched := [];
    } else {
      var k := |run| - 1;
      sched := Projects(w0, run[..k]);
      var w, p, d := WideRun(w0, run[..k]), run[k].0, run[k].1;
      StepTurns(w, p, d);
      if WideStep(w, p, d).core != w.core {
        var c :| WideStep(w, p, d).core == Turn(w.core, p, c);
        assert (sched + [(p, c)])[..|sched|] == sched;
        sched := sched + [(p, c)];
      }
    }
  }

  lemma WideReachableCore(w: Wide)
    requires WideReachable(w)
    ensures Reachable(w.core)
  {
    hide Init, Run, WideRun;
    var w0, run :| WideInit(w0) && w == WideRun(w0, run);
    var sched := Projects(w0, run);
    assert Init(w0.core) && w.core == Run(w0.core, sched);
  }

  // ----- what the revision number tells -----

  // The revision a process has seen is the shared one exactly when the list has
  // not changed since it was noted, or changed a multiple of 2^64 - 1 times.
  lemma SeenTells(w: Wide, p: Proc)
    requires WideReachable(w) && p in w.locals && p in w.core.procs
    ensures
      var l := w.locals[p];
      l.at <= w.bumps && (l.seen == w.core.rev <==> l.at == w.bumps || (l.at >= 1 && (w.bumps - l.at) % REV_MAX == 0))
  {
    hide WideReachable, WideInv, Inv, Claim, TipOk, ActOk, AgreedOk, OrderOk;
    WideReachableSafe(w);
    CoreKeeps(w);
    RevTells(w.locals[p].at, w.bumps);
  }

  // A process between directives.
  ghost predicate Resting(w: Wide, p: Proc) {
    p in w.locals && p in w.core.procs && w.locals[p].act == Quiet && w.core.procs[p].pc == Idle
  }

  // A process between directives that has seen the shared revision tracks the
  // agreed list, in its order; at most it has already dropped the segment that is
  // just being cut out.
  lemma InStep(w: Wide, p: Proc)
    requires WideReachable(w) && Resting(w, p) && w.locals[p].seen == w.core.rev && w.bumps - w.locals[p].at < REV_MAX
    ensures AgreedOk(w.core.fchain, w.agreed, Now(w.core)) && Like(w.locals[p].order, w.agreed, Now(w.core))
  {
    hide WideReachable, WideInv, Inv, TipOk, ActOk, AgreedOk, OrderOk, Like;
    WideReachableSafe(w);
    CoreKeeps(w);
    SeenTells(w, p);
    WholeOrder(w.locals[p].order);
    SmallRest(w.bumps - w.locals[p].at);
  }

  lemma SmallRest(d: nat)
    requires d < REV_MAX && d % REV_MAX == 0
    ensures d == 0
  {}

  // With the lock free it tracks exactly the shared list: what a walk from the
  // first number visits, and what its table holds.
  lemma Coherent(w: Wide, p: Proc, k: nat)
    requires WideReachable(w) && Resting(w, p) && w.core.owner == None
    requires w.locals[p].seen == w.core.rev && w.bumps - w.locals[p].at < REV_MAX
    requires k >= |w.locals[p].order|
    ensures
      var s, order := w.core, w.locals[p].order;
      Walk(s, s.first, k) == order && OrderOk(s.meta, s.procs[p].table, order)
  {
    hide WideReachable, WideInv, Inv, TypeOk, Accounted, ActOk, TipOk, Claim, Walk, Reachable, NoDup, AgreedOk, OrderOk, Like, Now;
    InStep(w, p);
    WideReachableSafe(w);
    CoreKeeps(w);
    WideReachableCore(w);
    StillFree(w.core);
    StillAgrees(w.core.fchain, w.agreed, w.locals[p].order);
    WalkVisits(w.core, k);
  }

  lemma StillFree(s: State)
    requires s.owner == None
    ensures Now(s) == Still
  {}

  lemma StillAgrees(c: seq<Obj>, agreed: seq<Obj>, order: seq<Obj>)
    requires AgreedOk(c, agreed, Still) && Like(order, agreed, Still)
    ensures order == c
  {}

  // ----- updating -----

  // When an update of all has followed the list to its end, the process notes the
  // revision of a list that it tracks, in order, behind what it is about to drop.
  lemma UpdateNotes(w: Wide, p: Proc, d: Deed)
    requires WideReachable(w) && p in w.locals && p in w.core.procs && w.locals[p].act.Reached?
    ensures
      var t := WideStep(w, p, d);
      && p in t.locals && t.locals[p].at == t.bumps && t.locals[p].seen == t.core.rev && t.core == w.core
      && t.core.owner == Some(p) && t.locals[p].act.Unlocking?
      && t.locals[p].act.k <= |t.locals[p].order| && t.locals[p].order[t.locals[p].act.k..] == t.core.fchain
  {
    hide WideReachable, WideInv, Inv, OrderOk, Claim, TipOk, Shared;
    WideReachableSafe(w);
    CoreKeeps(w);
  }

  // While it drops the segments in front, and the revision has not changed again,
  // what is behind them is the shared list, and none of them is in it.
  lemma UpdateDrops(w: Wide, p: Proc)
    requires WideReachable(w) && p in w.locals && p in w.core.procs && w.locals[p].act.Dropping? && w.core.procs[p].pc == Idle
    requires w.locals[p].seen == w.core.rev && w.bumps - w.locals[p].at < REV_MAX && w.core.owner == None
    ensures
      var order, k := w.locals[p].order, w.locals[p].act.k;
      k <= |order| && order[k..] == w.core.fchain && forall i :: 0 <= i < k ==> order[i] !in w.core.fchain
  {
    hide WideReachable, WideInv, Inv, TipOk, AgreedOk, Like, Now;
    var order, k := w.locals[p].order, w.locals[p].act.k;
    WideReachableSafe(w);
    CoreKeeps(w);
    SeenTells(w, p);
    SmallRest(w.bumps - w.locals[p].at);
    StillFree(w.core);
    assert order[k..|order| - 0] == order[k..];
    StillAgrees(w.core.fchain, w.agreed, order[k..]);
  }

  // An update of the latest that does anything ends with the segment it took for the
  // last one at the end of the process's list; unless the list has changed since, it
  // is the last of the shared list.
  lemma LatestPlaced(w: Wide, p: Proc, d: Deed)
    requires WideReachable(w) && p in w.locals && p in w.core.procs && w.core.procs[p].pc == Idle
    requires w.locals[p].act == Peeking || w.locals[p].act == Opened || w.locals[p].act.Placing?
    requires var t := WideStep(w, p, d); p in t.locals && t.locals[p].act == Quiet
    ensures
      var t := WideStep(w, p, d);
      var order, tip := t.locals[p].order, t.locals[p].tip;
      && tip.Some? && order != [] && order[|order| - 1] == tip.value.0
      && (w.locals[p].act.Placing? || tip.value.1 == t.bumps)
      && (t.core.owner == None && tip.value.1 == t.bumps ==> WalkBack(t.core, t.core.last, 1) == [order[|order| - 1]])
  {
    hide WideReachable, WideInv, Inv, TypeOk, Accounted, Abreast, AgreedOk, WideStep, WalkBack;
    WideReachableSafe(w);
    CoreKeeps(w);
    LatestEnds(w, p, d);
    StepReaches(w, p, d);
    var t := WideStep(w, p, d);
    WideReachableSafe(t);
    CoreKeeps(t);
    if t.core.owner == None && t.locals[p].tip.value.1 == t.bumps {
      StillFree(t.core);
      TipLast(t, p);
    }
  }

  lemma LatestEnds(w: Wide, p: Proc, d: Deed)
    requires p in w.locals && p in w.core.procs && w.core.procs[p].pc == Idle && Abreast(w, p)
    requires w.locals[p].act == Peeking || w.locals[p].act == Opened || w.locals[p].act.Placing?
    requires var t := WideStep(w, p, d); p in t.locals && t.locals[p].act == Quiet
    ensures
      var t := WideStep(w, p, d);
      var order, tip := t.locals[p].order, t.locals[p].tip;
      && tip.Some? && order != [] && order[|order| - 1] == tip.value.0
      && (w.locals[p].act.Placing? || tip.value.1 == t.bumps)
  {
    hide OrderOk, Claim, TipOk, Turn, Without, CanLock;
  }

  // However an update of the latest ends, it has found that there is no last segment, or
  // the list ends with the segment it took for the last one.
  lemma LatestDecides(w: Wide, p: Proc, d: Deed)
    requires WideReachable(w) && p in w.locals && p in w.core.procs && w.core.procs[p].pc == Idle
    requires var act := w.locals[p].act; act != Quiet && !Updating(act) && !GivingUp(act)
    requires var t := WideStep(w, p, d); p in t.locals && t.locals[p].act == Quiet
    ensures
      var l := WideStep(w, p, d).locals[p];
      NO_SEG in l.looks || (l.tip.Some? && l.order != [] && l.order[|l.order| - 1] == l.tip.value.0)
  {
    hide WideReachable, WideInv, Inv, OrderOk, Claim, TipOk, Shared, Turn, Without, CanLock;
    WideReachableSafe(w);
    CoreKeeps(w);
    var l := w.locals[p];
    if l.act == PeekingAgain {
      assert (l.looks + [w.core.last])[|l.looks|] == w.core.last;
    }
  }

  lemma StepReaches(w: Wide, p: Proc, d: Deed)
    requires WideReachable(w)
    ensures WideReachable(WideStep(w, p, d))
  {
    hide WideInit, WideStep;
    var w0, run :| WideInit(w0) && w == WideRun(w0, run);
    assert (run + [(p, d)])[..|run|] == run;
    assert WideRun(w0, run + [(p, d)]) == WideStep(w, p, d);
  }

  lemma TipLast(w: Wide, p: Proc)
    requires WideReachable(w) && p in w.locals && p in w.core.procs && Now(w.core) == Still
    requires w.locals[p].tip.Some? && w.locals[p].tip.value.1 == w.bumps
    ensures WalkBack(w.core, w.core.last, 1) == [w.locals[p].tip.value.0]
    ensures w.core.fchain != [] && w.core.fchain[|w.core.fchain| - 1] == w.locals[p].tip.value.0
  {
    hide WideReachable, WideInv, Inv, TypeOk, Accounted, ActOk, Claim, WalkBack, Reachable, OrderOk, Now, NoDup;
    var s := w.core;
    WideReachableSafe(w);
    CoreKeeps(w);
    WideReachableCore(w);
    StillAgrees(s.fchain, w.agreed, w.agreed);
    SameChains(s, p);
    WalkVisits(s, 1);
  }
}
