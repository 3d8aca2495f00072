/** What an update of the latest attains when its process is left to run. */
module DirectiveLatest {
  import opened Options
  import opened SegmentModel
  import opened SegmentInvariant
  import opened SegmentAccounts
  import opened SegmentTheorems
  import opened SegmentLocks
  import opened SegmentRank
  import opened SegmentAlone
  import opened SegmentGiveUp
  import opened DirectiveModel
  import opened DirectiveInvariant
  import opened DirectiveSteps
  import opened DirectiveSafety
  import opened DirectiveDeeds
  import opened DirectiveTheorems
  import opened DirectiveAlone

  // How far an update of the latest has to go, before the rank of its operation.
  function LatestStage(act: Act): nat {
    match act
    case Peeking => 6
    case PeekingAgain => 5
    case Taking => 4
    case Checking => 3
    case Opened => 2
    case Found(_) => 2
    case Placing(_) => 1
    case _ => 0
  }

  predicate Holding(act: Act) {
    act.Checking? || act.Opened? || act.Found?
  }

  // The list of an update that began with the list `order`: the last segment is placed
  // at the end, or opened.
  ghost predicate Ordered(s: State, p: Proc, l: Local, order: seq<Obj>)
    requires p in s.procs
  {
    match l.act
    case Opened =>
      if s.procs[p].pc == Idle then l.order != [] && l.order == MoveLast(order, l.order[|l.order| - 1])
      else l.order == order && s.last !in s.procs[p].table
    case Quiet => l.tip.Some? && l.order == MoveLast(order, l.tip.value.0)
    case _ => l.order == order && LatestStage(l.act) > 0
  }

  // An update of the latest that began with the shared memory `s`.
  ghost predicate InLatest(w: Wide, p: Proc, order: seq<Obj>, s: State) {
    && p in w.locals && p in w.core.procs && CanLock(s, p) && (s.owner == None <==> s.level == 0) && s.last != NO_SEG
    && w.core.fchain == s.fchain && w.core.last == s.last
    && (if Holding(w.locals[p].act) then w.core.owner == Some(p) && w.core.level == s.level + 1 else w.core.owner == s.owner && w.core.level == s.level)
    && (w.locals[p].act == Opened || w.core.procs[p].pc == Idle)
    && (w.locals[p].tip.Some? ==> w.locals[p].tip.value.1 == w.bumps)
    && Ordered(w.core, p, w.locals[p], order)
  }

  ghost predicate Sooner(w: Wide, t: Wide, p: Proc) {
    && p in w.locals && p in t.locals && p in w.core.procs && p in t.core.procs
    && var a, b := LatestStage(w.locals[p].act), LatestStage(t.locals[p].act);
       b < a || (b == a && 0 <= Rank(w.core, p, 0) && Rank(t.core, p, 0) < Rank(w.core, p, 0))
  }

  // In the middle of opening the last segment.
  lemma LatestBusy(w: Wide, p: Proc, order: seq<Obj>, s: State)
    requires WideInv(w) && InLatest(w, p, order, s) && w.core.procs[p].pc != Idle
    ensures var t := WideStep(w, p, UpdateLatest); InLatest(t, p, order, s) && Sooner(w, t, p)
  {
    hide Inv, TypeOk, Accounted, Shared, OrderOk, Claim, TipOk, Step, Rank, Tail, Ordered, Abreast;
    CoreKeeps(w);
    OpenedWhere(w, p);
    var u := w.core;
    RankDrops(u, p, 0);
    TurnIs(u, p, Lock);
    OpenParts(u, p);
    OpenedOrder(w, p, order);
  }

  lemma OpenedWhere(w: Wide, p: Proc)
    requires p in w.locals && p in w.core.procs && Abreast(w, p) && w.core.procs[p].pc != Idle && w.locals[p].act == Opened
    ensures (w.core.procs[p].pc.Resolving? || w.core.procs[p].pc.Opening?) && Numbered(w.core, p, 0)
    ensures w.core.procs[p].pc.w == ForWalk && LastOk(w.core, w.locals[p], w.core.procs[p].pc)
  {
    hide OrderOk, Claim, TipOk, Tail;
  }

  // When it is open it is at the end of the list.
  lemma OpenedOrder(w: Wide, p: Proc, order: seq<Obj>)
    requires WideInv(w) && p in w.locals && p in w.core.procs && w.core.procs[p].pc != Idle && w.locals[p].act == Opened
    requires Ordered(w.core, p, w.locals[p], order)
    ensures
      var t := WideStep(w, p, UpdateLatest);
      p in t.locals && p in t.core.procs && t.locals[p].act == Opened && t.core.last == w.core.last ==> Ordered(t.core, p, t.locals[p], order)
  {
    hide Inv, TypeOk, Accounted, Shared, Claim, TipOk, Step, Tail, Abreast;
    CoreKeeps(w);
    OpenedWhere(w, p);
    var s := w.core;
    TurnIs(s, p, Lock);
    if s.procs[p].pc.Resolving? {
      Resolves(s, p);
    }
    OtherTable(s, p, Lock);
    if s.procs[p].pc.Opening? && s.procs[p].pc.e == OpenTrack {
      var q := s.procs[p].pc.q;
      NotListed(w, p, q);
      WithoutNone(order, q);
    }
  }

  lemma NotListed(w: Wide, p: Proc, q: Obj)
    requires p in w.locals && p in w.core.procs && Abreast(w, p) && q in w.core.meta && w.core.meta[q].num !in w.core.procs[p].table
    ensures q !in w.locals[p].order
  {
    hide Claim, TipOk, ActOk, NoDup;
  }

  // Before the lock.
  lemma PeekSteps(w: Wide, p: Proc, order: seq<Obj>, s: State)
    requires WideInv(w) && InLatest(w, p, order, s) && (w.locals[p].act == Peeking || w.locals[p].act == PeekingAgain)
    ensures var t := WideStep(w, p, UpdateLatest); InLatest(t, p, order, s) && Sooner(w, t, p)
  {
    hide WideInv, Rank;
  }

  lemma LockSteps(w: Wide, p: Proc, order: seq<Obj>, s: State)
    requires WideInv(w) && InLatest(w, p, order, s) && (w.locals[p].act == Taking || w.locals[p].act.Found?)
    ensures var t := WideStep(w, p, UpdateLatest); InLatest(t, p, order, s) && Sooner(w, t, p)
  {
    hide Inv, TypeOk, Accounted, Shared, Abreast, Rank, Step;
    CoreKeeps(w);
    var c := if w.locals[p].act == Taking then Lock else Unlock;
    TurnIs(w.core, p, c);
    StepIsIdle(w.core, p, c);
    LockIdle(w.core, p);
    StepLocks(w.core, p, c);
  }

  lemma CheckSteps(w: Wide, p: Proc, order: seq<Obj>, s: State)
    requires WideInv(w) && InLatest(w, p, order, s) && w.locals[p].act == Checking
    ensures var t := WideStep(w, p, UpdateLatest); InLatest(t, p, order, s) && Sooner(w, t, p)
  {
    hide Inv, TypeOk, Accounted, Shared, Abreast, Rank, Step;
    CoreKeeps(w);
    var u := w.core;
    if u.last !in u.procs[p].table {
      OpenIdle(u, p, OpenLast);
      TurnIs(u, p, OpenLast);
      StepIsIdle(u, p, OpenLast);
      StepLocks(u, p, OpenLast);
    }
  }

  // The segment it took for the last one is at the end.
  lemma EndSteps(w: Wide, p: Proc, order: seq<Obj>, s: State)
    requires WideInv(w) && InLatest(w, p, order, s) && w.core.procs[p].pc == Idle && (w.locals[p].act == Opened || w.locals[p].act.Placing?)
    ensures var t := WideStep(w, p, UpdateLatest); InLatest(t, p, order, s) && Sooner(w, t, p)
  {
    hide Inv, TypeOk, Accounted, Shared, Claim, TipOk, OrderOk, Rank, Step;
    CoreKeeps(w);
    if w.locals[p].act == Opened {
      TurnIs(w.core, p, Unlock);
      StepIsIdle(w.core, p, Unlock);
      LockIdle(w.core, p);
      StepLocks(w.core, p, Unlock);
    } else {
      assert Abreast(w, p);
    }
  }

  lemma LatestGoesOn(w: Wide, p: Proc, order: seq<Obj>, s: State)
    requires WideInv(w) && InLatest(w, p, order, s) && w.locals[p].act != Quiet
    ensures var t := WideStep(w, p, UpdateLatest); WideInv(t) && InLatest(t, p, order, s) && Sooner(w, t, p)
  {
    hide WideInv, WideStep, Sooner, CanLock;
    WideKeeps(w, p, UpdateLatest);
    if w.core.procs[p].pc != Idle {
      LatestBusy(w, p, order, s);
    } else {
      match w.locals[p].act
      case Peeking => PeekSteps(w, p, order, s);
      case PeekingAgain => PeekSteps(w, p, order, s);
      case Taking => LockSteps(w, p, order, s);
      case Checking => CheckSteps(w, p, order, s);
      case Found(o) => LockSteps(w, p, order, s);
      case Opened => EndSteps(w, p, order, s);
      case Placing(o) => EndSteps(w, p, order, s);
    }
  }

  lemma {:induction false} LatestEndsAt(w: Wide, p: Proc, order: seq<Obj>, s: State) returns (n: nat, t: Wide)
    requires WideInv(w) && InLatest(w, p, order, s)
    ensures Reaches(w, t, p, UpdateLatest, n) && InLatest(t, p, order, s) && t.locals[p].act == Quiet
    decreases LatestStage(w.locals[p].act), Rank(w.core, p, 0)
  {
    hide WideInv, WideStep, Reaches, Rank, Ordered, Holding, CanLock;
    if w.locals[p].act == Quiet {
      NoTurn(w, p, UpdateLatest);
      n, t := 0, w;
    } else {
      LatestGoesOn(w, p, order, s);
      n, t := LatestEndsAt(WideStep(w, p, UpdateLatest), p, order, s);
      StepThen(w, t, p, UpdateLatest, n);
      n := n + 1;
    }
  }

  lemma LatestStarts(w: Wide, p: Proc)
    requires WideInv(w) && Resting(w, p) && CanLock(w.core, p) && w.locals[p].seen != w.core.rev && w.core.last != NO_SEG
    ensures var u := WideStep(w, p, UpdateLatest); WideInv(u) && InLatest(u, p, w.locals[p].order, w.core)
  {
    hide WideInv, Inv, Rank;
    CoreKeeps(w);
    LevelKnown(w.core, p);
    WideKeeps(w, p, UpdateLatest);
    assert WideStep(w, p, UpdateLatest) == w.(locals := w.locals[p := w.locals[p].(act := Peeking, tip := None, looks := [])]);
  }

  // An update of the latest that runs alone, when there is a last segment, ends with it
  // moved or added to the end of the process's list, the shared list and the lock as
  // they were.
  lemma LatestAlone(w: Wide, p: Proc) returns (n: nat)
    requires WideReachable(w) && Resting(w, p) && CanLock(w.core, p) && w.locals[p].seen != w.core.rev && w.core.last != NO_SEG
    ensures
      var t := WideRun(w, WideTurns(p, UpdateLatest, n));
      && Resting(t, p) && t.core.fchain != []
      && t.locals[p].order == MoveLast(w.locals[p].order, t.core.fchain[|t.core.fchain| - 1])
      && WalkBack(t.core, t.core.last, 1) == [t.core.fchain[|t.core.fchain| - 1]]
      && t.core.fchain == w.core.fchain && t.core.owner == w.core.owner && t.core.level == w.core.level
  {
    hide WideReachable, WideInv, WideRun, WideStep, Inv, Rank, WalkBack, MoveLast;
    WideReachableSafe(w);
    LatestStarts(w, p);
    var t;
    n, t := LatestEndsAt(WideStep(w, p, UpdateLatest), p, w.locals[p].order, w.core);
    StepThen(w, t, p, UpdateLatest, n);
    n := n + 1;
    ReachesThere(w, t, p, UpdateLatest, n);
    StillIdle(t.core, p);
    TipLast(t, p);
  }
}
