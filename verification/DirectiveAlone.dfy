/** What a directive attains when its process is left to run. */
module DirectiveAlone {
  import opened Counters
  import opened Options
  import opened SegmentModel
  import opened SegmentInvariant
  import opened SegmentFrames
  import opened SegmentSafety
  import opened SegmentAccounts
  import opened SegmentTheorems
  import opened SegmentLocks
  import opened SegmentRank
  import opened SegmentAlone
  import opened DirectiveModel
  import opened DirectiveFrames
  import opened DirectiveInvariant
  import opened DirectiveDeeds
  import opened DirectiveTheorems

  // ----- one process running -----

  function WideTurns(p: Proc, d: Deed, n: nat): (run: seq<(Proc, Deed)>)
    ensures |run| == n && forall i :: 0 <= i < n ==> run[i] == (p, d)
  {
    seq(n, _ => (p, d))
  }

  lemma {:induction false} WideConcat(w: Wide, a: seq<(Proc, Deed)>, b: seq<(Proc, Deed)>)
    ensures WideRun(w, a + b) == WideRun(WideRun(w, a), b)
    decreases |b|
  {
    hide WideStep;
    if b == [] {
      assert a + b == a;
    } else {
      var k := |b| - 1;
      assert (a + b)[..|a| + k] == a + b[..k];
      WideConcat(w, a, b[..k]);
    }
  }

  ghost predicate Reaches(w: Wide, t: Wide, p: Proc, d: Deed, n: nat) {
    t == WideRun(w, WideTurns(p, d, n))
  }

  lemma NoTurn(w: Wide, p: Proc, d: Deed)
    ensures Reaches(w, w, p, d, 0)
  {
    assert WideTurns(p, d, 0) == [];
  }

  // One step, then the others.
  lemma StepThen(w: Wide, t: Wide, p: Proc, d: Deed, n: nat)
    requires Reaches(WideStep(w, p, d), t, p, d, n)
    ensures Reaches(w, t, p, d, n + 1)
  {
    hide WideStep;
    var one := [(p, d)];
    assert one[..0] == [];
    assert WideRun(w, []) == w;
    assert WideRun(w, one) == WideStep(w, p, d);
    assert WideTurns(p, d, n + 1) == one + WideTurns(p, d, n);
    WideConcat(w, one, WideTurns(p, d, n));
  }

  lemma ReachesThere(w: Wide, t: Wide, p: Proc, d: Deed, n: nat)
    requires Reaches(w, t, p, d, n)
    ensures t == WideRun(w, WideTurns(p, d, n))
    ensures WideReachable(w) ==> WideReachable(t)
  {
    hide WideInit, WideStep, WideRun;
    if WideReachable(w) {
      var w0, run :| WideInit(w0) && w == WideRun(w0, run);
      WideConcat(w0, run, WideTurns(p, d, n));
      assert t == WideRun(w0, run + WideTurns(p, d, n));
    }
  }

  // ----- an operation within a directive -----

  lemma Onward(w: Wide, u: Wide, t: Wide, p: Proc, d: Deed, m: nat, n: nat)
    requires Reaches(w, u, p, d, m) && Reaches(u, t, p, d, n)
    ensures Reaches(w, t, p, d, m + n)
  {
    hide WideStep;
    assert WideTurns(p, d, m + n) == WideTurns(p, d, m) + WideTurns(p, d, n);
    WideConcat(w, WideTurns(p, d, m), WideTurns(p, d, n));
  }

  // While a process is in the middle of an operation, its turns are those of the
  // operation.
  lemma {:induction false} WideWorks(w: Wide, t: State, p: Proc, d: Deed, k: nat) returns (v: Wide)
    requires p in w.locals && Works(w.core, t, p, k)
    ensures Reaches(w, v, p, d, k) && v.core == t && p in v.locals && v.locals[p].act == w.locals[p].act
    decreases k
  {
    hide Step, TypeOk, Turn, Reaches, OrderAfter;
    if k == 0 {
      NoTurn(w, p, d);
      v := w;
    } else {
      TurnIs(w.core, p, Lock);
      WorksOn(w.core, t, p, k);
      v := WideWorks(WideStep(w, p, d), t, p, d, k - 1);
      StepThen(w, v, p, d, k - 1);
    }
  }

  lemma WorksOn(s: State, t: State, p: Proc, k: nat)
    requires Works(s, t, p, k) && k > 0
    ensures p in s.procs && TypeOk(s) && s.procs[p].pc != Idle && Works(Step(s, p, Lock), t, p, k - 1)
  {
    hide Step, TypeOk;
  }

  // A directive whose next step starts an operation, with that operation run to its end.
  lemma Operation(w: Wide, t: State, p: Proc, d: Deed, c: Choice, act: Act, k: nat) returns (v: Wide)
    requires p in w.locals && p in w.core.procs && TypeOk(w.core)
    requires WideStep(w, p, d) == Follow(w, p, c, act) && Works(Step(w.core, p, c), t, p, k)
    ensures Reaches(w, v, p, d, k + 1) && v.core == t && p in v.locals && v.locals[p].act == act
  {
    hide Step, TypeOk, WideStep, Turn, Reaches, OrderAfter, Works;
    TurnIs(w.core, p, c);
    v := WideWorks(Follow(w, p, c, act), t, p, d, k);
    StepThen(w, v, p, d, k);
  }

  // ----- updating all -----

  // How far an update of all has to go, before the rank of its operation.
  function UpdateStage(act: Act): nat {
    match act
    case Entering => 4
    case Walking(_) => 3
    case Fetching(_) => 3
    case Reached(_) => 2
    case Unlocking(_) => 2
    case Dropping(_) => 1
    case _ => 0
  }

  function UpdateCount(act: Act, n: nat): int {
    match act
    case Walking(i) => 2 * (n - i)
    case Fetching(i) => 2 * (n - i) - 1
    case Reached(_) => 1
    case Dropping(k) => k
    case _ => 0
  }

  // Under the lock of the update.
  predicate Locking(act: Act) {
    act.Walking? || act.Fetching? || act.Reached? || act.Unlocking?
  }

  // A segment that is dropped is not listed any more, so it is only counted out.
  ghost predicate Dropped(s: State, pc: Pc) {
    match pc
    case Idle => true
    case Detaching(o) => o in s.meta && s.meta[o].invalid
    case Removing(o, m, r) => m == RemPeek && r != Explicit && o in s.meta && s.meta[o].invalid
    case Swapping(o, _, _) => o in s.meta && s.meta[o].invalid
    case Finishing(_, _) => true
    case _ => false
  }

  // An update of all that began with the list `c` and the lock at `level` of `owner`.
  ghost predicate InUpdate(w: Wide, p: Proc, c: seq<Obj>, owner: Option<Proc>, level: nat) {
    && p in w.locals && p in w.core.procs && (owner == None || owner == Some(p)) && (owner == None <==> level == 0)
    && (Updating(w.locals[p].act) || (w.locals[p].act == Quiet && w.core.procs[p].pc == Idle && w.locals[p].at == w.bumps))
    && w.core.fchain == c
    && (if Locking(w.locals[p].act) then w.core.owner == Some(p) && w.core.level == level + 1 else w.core.owner == owner && w.core.level == level)
    && (w.locals[p].act == Entering ==> w.core.procs[p].pc == Idle)
    && (w.locals[p].act.Dropping? ==> w.locals[p].at == w.bumps && Dropped(w.core, w.core.procs[p].pc))
  }

  // The same segments are invalid.
  ghost predicate SameMarks(meta: map<Obj, Meta>, meta': map<Obj, Meta>) {
    forall o :: o in meta ==> o in meta' && meta'[o].invalid == meta[o].invalid
  }

  // A step of a segment that is dropped.
  lemma DropSteps(s: State, p: Proc)
    requires Inv(s) && TypeOk(s) && p in s.procs && s.procs[p].pc != Idle && Dropped(s, s.procs[p].pc)
    ensures
      var t := Step(s, p, Lock);
      && p in t.procs && Dropped(t, t.procs[p].pc) && t.fchain == s.fchain && t.owner == s.owner && t.level == s.level && !Bumps(s.procs[p].pc)
      && SameMarks(s.meta, t.meta) && StageRank(t.meta, t.procs[p].pc, 0) < StageRank(s.meta, s.procs[p].pc, 0)
  {
    hide Inv, TypeOk, Step, StageRank, SameMarks;
    DropHolds(s, p);
    StepList(s, p);
    DropMarks(s, p);
    DropGoes(s, p);
  }

  lemma DropMarks(s: State, p: Proc)
    requires TypeOk(s) && p in s.procs && s.procs[p].pc != Idle && Dropped(s, s.procs[p].pc)
    ensures SameMarks(s.meta, Step(s, p, Lock).meta)
  {
    hide TypeOk, Goto, Write, SameMarks, SwapStep, FinishStep, DetachStep;
    PcTyped(s, p);
    match s.procs[p].pc
    case Detaching(o) => DetachEnds(s, p, o); MarkSame(s.meta, o, s.meta[o]);
    case Removing(o, m, r) => GoList(s, p, AfterRemove(o, r)); MarkSame(s.meta, o, s.meta[o]);
    case Swapping(o, seen, flagging) => SwapMarks(s, p, o, seen, flagging);
    case Finishing(o, f) => FinishMarks(s, p, o, f);
  }

  lemma DropGoes(s: State, p: Proc)
    requires Inv(s) && TypeOk(s) && p in s.procs && s.procs[p].pc != Idle && Dropped(s, s.procs[p].pc)
    requires SameMarks(s.meta, Step(s, p, Lock).meta)
    ensures
      var t := Step(s, p, Lock);
      p in t.procs && Dropped(t, t.procs[p].pc) && StageRank(t.meta, t.procs[p].pc, 0) < StageRank(s.meta, s.procs[p].pc, 0)
  {
    hide Inv, TypeOk, Step, Dropped, StageRank, SameMarks;
    DropLeads(s, p);
    DropLower(s, Step(s, p, Lock), p);
  }

  // Where a step of a segment that is dropped leads.
  ghost predicate DropNext(s: State, t: State, pc: Pc, pc': Pc) {
    match pc
    case Detaching(o) =>
      && t.meta == s.meta && o in s.meta
      && pc' == if !s.meta[o].ctr.flag && Down(s.meta[o].ctr).count == 0 then Removing(o, RemPeek, FromDetach(s.meta[o].ctr)) else Swapping(o, s.meta[o].ctr, false)
    case Removing(o, _, r) => t.meta == s.meta && pc' == AfterRemove(o, r)
    case Swapping(o, seen, flagging) => o in s.meta && pc' == if s.meta[o].ctr != seen then Detaching(o) else if flagging && !seen.flag then Finishing(o, Unlink) else Idle
    case Finishing(o, f) => pc' == (match f case Unlink => Finishing(o, Post) case Post => Finishing(o, Refund) case Refund => Idle)
    case _ => false
  }

  lemma DropLeads(s: State, p: Proc)
    requires Inv(s) && TypeOk(s) && p in s.procs && s.procs[p].pc != Idle && Dropped(s, s.procs[p].pc)
    ensures p in Step(s, p, Lock).procs && DropNext(s, Step(s, p, Lock), s.procs[p].pc, Step(s, p, Lock).procs[p].pc)
  {
    hide Names, Counts, Places, Tables, Held, LedgerOk, LockOk, ListOk, TypeOk, Goto, Write, SwapStep, FinishStep, DetachStep;
    GetProc(s, p);
    PcTyped(s, p);
    match s.procs[p].pc
    case Detaching(o) => DetachEnds(s, p, o);
    case Removing(o, m, r) => GoIs(s, p, AfterRemove(o, r));
    case Swapping(o, seen, flagging) => SwapEnds(s, p, o, seen, flagging);
    case Finishing(o, f) => FinishEnds(s, p, o, f);
  }

  lemma DropLower(s: State, t: State, p: Proc)
    requires p in s.procs && p in t.procs && s.procs[p].pc != Idle && Dropped(s, s.procs[p].pc) && SameMarks(s.meta, t.meta)
    requires DropNext(s, t, s.procs[p].pc, t.procs[p].pc)
    ensures Dropped(t, t.procs[p].pc) && StageRank(t.meta, t.procs[p].pc, 0) < StageRank(s.meta, s.procs[p].pc, 0)
  {}

  // A swap leaves the invalid marks alone.
  lemma SwapMarks(s: State, p: Proc, o: Obj, seen: Counter, flagging: bool)
    requires p in s.procs && o in s.meta
    ensures SameMarks(s.meta, SwapStep(s, p, o, seen, flagging).meta)
  {
    hide Goto, Write, Down, SameMarks;
    var m := s.meta[o];
    if m.ctr != seen {
      GoList(s, p, Detaching(o));
      MarkSame(s.meta, o, m);
    } else {
      var after := if flagging then Down(seen).(flag := true) else Down(seen);
      var left := m.(ctr := after, trackers := m.trackers - {p});
      var out := left.(flips := m.flips + 1, flagger := Some(p));
      WriteList(s, o, out);
      WriteList(s, o, left);
      GoList(Write(s, o, out), p, Finishing(o, Unlink));
      GoList(Write(s, o, left), p, Idle);
      MarkSame(s.meta, o, out);
      MarkSame(s.meta, o, left);
    }
  }

  lemma MarkSame(meta: map<Obj, Meta>, o: Obj, m: Meta)
    requires o in meta && m.invalid == meta[o].invalid
    ensures SameMarks(meta, meta[o := m]) && SameMarks(meta, meta)
  {}

  lemma FinishMarks(s: State, p: Proc, o: Obj, f: FinishStage)
    requires p in s.procs && o in s.meta
    ensures SameMarks(s.meta, FinishStep(s, p, o, f).meta)
  {}

  lemma DropHolds(s: State, p: Proc)
    requires TypeOk(s) && p in s.procs && s.procs[p].pc != Idle && Dropped(s, s.procs[p].pc)
    ensures var t := Step(s, p, Lock); t.owner == s.owner && t.level == s.level
  {
    hide TypeOk, Step, Dropped;
    StepLocks(s, p, Lock);
    DropLocks(s, p);
  }

  lemma DropLocks(s: State, p: Proc)
    requires p in s.procs && s.procs[p].pc != Idle && Dropped(s, s.procs[p].pc)
    ensures LockTurn(s, p, Lock) == SegmentLocks.Leaves
  {}

  // A tracked segment that is not listed is invalid.
  lemma UnlistedInvalid(s: State, p: Proc, n: int)
    requires Inv(s) && p in s.procs && !s.procs[p].pc.Building? && n in s.procs[p].table && Now(s) == Still
    requires s.procs[p].table[n] !in s.fchain
    ensures var o := s.procs[p].table[n]; o in s.meta && s.meta[o].num == n && s.meta[o].invalid
  {
    hide Names, Counts, Procs, Tables, Held, LedgerOk, ListOk, LockOk;
    GetEntry(s, p, n);
    var o := s.procs[p].table[n];
    assert Place(s, o);
    if UnmarkedBy(s.procs, s.creator, o) {
      GetProc(s, s.creator[o]);
    }
  }

  // ----- one step of the update -----

  // The next state is nearer to the end of the update.
  ghost predicate Lower(w: Wide, t: Wide, p: Proc) {
    && p in w.locals && p in t.locals && p in w.core.procs && p in t.core.procs
    && var a, b, n := w.locals[p].act, t.locals[p].act, |w.core.fchain|;
       || UpdateStage(b) < UpdateStage(a)
       || (UpdateStage(b) == UpdateStage(a) && 0 <= UpdateCount(b, n) < UpdateCount(a, n))
       || (UpdateStage(b) == UpdateStage(a) && UpdateCount(b, n) == UpdateCount(a, n) && 0 <= Rank(w.core, p, 0) && Rank(t.core, p, 0) < Rank(w.core, p, 0))
  }

  // In the middle of a protocol operation of the update.
  lemma UpdateBusy(w: Wide, p: Proc, c: seq<Obj>, owner: Option<Proc>, level: nat)
    requires WideInv(w) && InUpdate(w, p, c, owner, level) && w.core.procs[p].pc != Idle
    ensures var t := WideStep(w, p, UpdateAll); InUpdate(t, p, c, owner, level) && Lower(w, t, p)
  {
    hide Inv, TypeOk, Accounted, Shared, OrderOk, Claim, TipOk, Step, Rank, Dropped, Tail;
    CoreKeeps(w);
    BusyWhere(w, p);
    var s := w.core;
    BusyCan(w, p, c, owner, level);
    RankDrops(s, p, 0);
    TurnIs(s, p, Lock);
    if w.locals[p].act.Dropping? {
      DropSteps(s, p);
    } else {
      OpenParts(s, p);
    }
  }

  lemma BusyWhere(w: Wide, p: Proc)
    requires p in w.locals && p in w.core.procs && Abreast(w, p) && w.core.procs[p].pc != Idle && Updating(w.locals[p].act)
    ensures w.locals[p].act.Fetching? || w.locals[p].act.Dropping? || w.locals[p].act == Entering
    ensures w.locals[p].act.Fetching? ==> w.core.procs[p].pc.Resolving? || w.core.procs[p].pc.Opening?
  {
    hide OrderOk, Claim, TipOk, Tail;
  }

  lemma BusyCan(w: Wide, p: Proc, c: seq<Obj>, owner: Option<Proc>, level: nat)
    requires InUpdate(w, p, c, owner, level) && w.core.procs[p].pc != Idle
    requires w.locals[p].act.Fetching? ==> w.core.procs[p].pc.Resolving? || w.core.procs[p].pc.Opening?
    requires w.locals[p].act.Fetching? || w.locals[p].act.Dropping?
    ensures CanLock(w.core, p) && Numbered(w.core, p, 0)
  {}

  lemma EnterSteps(w: Wide, p: Proc, c: seq<Obj>, owner: Option<Proc>, level: nat)
    requires WideInv(w) && InUpdate(w, p, c, owner, level) && w.locals[p].act == Entering
    ensures var t := WideStep(w, p, UpdateAll); InUpdate(t, p, c, owner, level) && Lower(w, t, p)
  {
    hide Inv, TypeOk, Accounted, Shared, Abreast, Rank, Dropped, Step;
    CoreKeeps(w);
    TurnIs(w.core, p, Lock);
    StepIsIdle(w.core, p, Lock);
    LockIdle(w.core, p);
    StepLocks(w.core, p, Lock);
  }

  lemma WalkSteps(w: Wide, p: Proc, i: nat, c: seq<Obj>, owner: Option<Proc>, level: nat)
    requires WideInv(w) && InUpdate(w, p, c, owner, level) && w.locals[p].act == Walking(i)
    ensures var t := WideStep(w, p, UpdateAll); InUpdate(t, p, c, owner, level) && Lower(w, t, p)
  {
    hide Inv, TypeOk, Accounted, Shared, OrderOk, Claim, TipOk, Rank, Dropped, Step, Tail;
    CoreKeeps(w);
    var s, l := w.core, w.locals[p];
    assert Ready(w, p);
    NextListed(w, p, i);
    if i < |s.fchain| && s.meta[s.fchain[i]].num !in s.procs[p].table {
      WalkLooks(w, p, i);
      var here := if l.order == [] then NO_SEG else l.order[|l.order| - 1];
      var d := if i == 0 then OpenFirst else OpenNext(Number(s, here));
      OpenIdle(s, p, d);
      TurnIs(s, p, d);
      StepIsIdle(s, p, d);
      StepLocks(s, p, d);
    }
  }

  // The segment the walk stands on is tracked.
  lemma WalkLooks(w: Wide, p: Proc, i: nat)
    requires Ready(w, p) && w.locals[p].act == Walking(i)
    ensures
      var s, l := w.core, w.locals[p];
      i > 0 ==> l.order != [] && l.order[|l.order| - 1] in s.meta && InTable(s.procs[p].table, Number(s, l.order[|l.order| - 1]), l.order[|l.order| - 1])
  {
    hide Inv, TypeOk, Shared, Claim, TipOk, Tail;
    NextListed(w, p, i);
    if i > 0 {
      TrackedLast(w.core, p, w.locals[p].order);
    }
  }

  lemma FetchedSteps(w: Wide, p: Proc, i: nat, c: seq<Obj>, owner: Option<Proc>, level: nat)
    requires WideInv(w) && InUpdate(w, p, c, owner, level) && w.locals[p].act == Fetching(i) && w.core.procs[p].pc == Idle
    ensures var t := WideStep(w, p, UpdateAll); InUpdate(t, p, c, owner, level) && Lower(w, t, p)
  {
    hide Inv, TypeOk, Accounted, Shared, OrderOk, Claim, TipOk, Rank, Dropped, Tail;
    CoreKeeps(w);
  }

  lemma NotedSteps(w: Wide, p: Proc, c: seq<Obj>, owner: Option<Proc>, level: nat)
    requires WideInv(w) && InUpdate(w, p, c, owner, level) && (w.locals[p].act.Reached? || w.locals[p].act.Unlocking?)
    ensures var t := WideStep(w, p, UpdateAll); InUpdate(t, p, c, owner, level) && Lower(w, t, p)
  {
    hide Inv, TypeOk, Accounted, Shared, OrderOk, Claim, TipOk, Rank, Step, Tail;
    CoreKeeps(w);
    assert Abreast(w, p);
    if w.locals[p].act.Unlocking? {
      TurnIs(w.core, p, Unlock);
      StepIsIdle(w.core, p, Unlock);
      LockIdle(w.core, p);
      StepLocks(w.core, p, Unlock);
    }
  }

  lemma FrontUnlisted(w: Wide, p: Proc, k: nat)
    requires Ready(w, p) && w.locals[p].act == Dropping(k) && w.locals[p].at == w.bumps && Now(w.core) == Still && k > 0
    ensures k <= |w.locals[p].order| && w.locals[p].order[0] !in w.core.fchain
  {
    hide Inv, TypeOk, Shared, Abreast, TipOk, ActOk, AgreedOk, Like;
    ReadyParts(w, p);
    var order := w.locals[p].order;
    assert order[k..|order| - 0] == order[k..];
    StillAgrees(w.core.fchain, w.agreed, order[k..]);
  }

  lemma DroppingSteps(w: Wide, p: Proc, k: nat, c: seq<Obj>, owner: Option<Proc>, level: nat)
    requires WideInv(w) && InUpdate(w, p, c, owner, level) && w.locals[p].act == Dropping(k) && w.core.procs[p].pc == Idle
    ensures var t := WideStep(w, p, UpdateAll); InUpdate(t, p, c, owner, level) && Lower(w, t, p)
  {
    hide Inv, TypeOk, Accounted, Shared, OrderOk, Claim, TipOk, Rank, Step, Tail, ActOk;
    CoreKeeps(w);
    var s, l := w.core, w.locals[p];
    if k > 0 && l.order != [] {
      StillIdle(s, p);
      FrontUnlisted(w, p, k);
      FrontTracked(s, p, l.order);
      var n := Number(s, l.order[0]);
      UnlistedInvalid(s, p, n);
      DetachGives(s, p, n);
      TurnIs(s, p, SegmentModel.Detach(n));
      StepIsIdle(s, p, SegmentModel.Detach(n));
    }
  }

  lemma FrontTracked(s: State, p: Proc, order: seq<Obj>)
    requires p in s.procs && OrderOk(s.meta, s.procs[p].table, order) && order != []
    ensures order[0] in s.meta && InTable(s.procs[p].table, Number(s, order[0]), order[0])
  {
    hide NoDup;
    assert order[0] in order;
  }

  lemma DetachGives(s: State, p: Proc, n: int)
    requires TypeOk(s) && p in s.procs && s.procs[p].pc == Idle && n in s.procs[p].table
    ensures
      var t := IdleStep(s, p, SegmentModel.Detach(n));
      t == s.(procs := s.procs[p := Process(Detaching(s.procs[p].table[n]), s.procs[p].table - {n})])
  {}

  lemma UpdateGoes(w: Wide, p: Proc, c: seq<Obj>, owner: Option<Proc>, level: nat)
    requires WideInv(w) && InUpdate(w, p, c, owner, level) && w.locals[p].act != Quiet
    ensures var t := WideStep(w, p, UpdateAll); WideInv(t) && InUpdate(t, p, c, owner, level) && Lower(w, t, p)
  {
    hide WideInv, WideStep, Lower, Dropped;
    WideKeeps(w, p, UpdateAll);
    if w.core.procs[p].pc != Idle {
      UpdateBusy(w, p, c, owner, level);
    } else {
      match w.locals[p].act
      case Entering => EnterSteps(w, p, c, owner, level);
      case Walking(i) => WalkSteps(w, p, i, c, owner, level);
      case Fetching(i) => FetchedSteps(w, p, i, c, owner, level);
      case Reached(i) => NotedSteps(w, p, c, owner, level);
      case Unlocking(k) => NotedSteps(w, p, c, owner, level);
      case Dropping(k) => DroppingSteps(w, p, k, c, owner, level);
    }
  }

  lemma {:induction false} UpdateEnds(w: Wide, p: Proc, c: seq<Obj>, owner: Option<Proc>, level: nat) returns (n: nat, t: Wide)
    requires WideInv(w) && InUpdate(w, p, c, owner, level)
    ensures Reaches(w, t, p, UpdateAll, n) && WideInv(t) && InUpdate(t, p, c, owner, level) && t.locals[p].act == Quiet
    decreases UpdateStage(w.locals[p].act), UpdateCount(w.locals[p].act, |w.core.fchain|), Rank(w.core, p, 0)
  {
    hide WideInv, WideStep, Dropped, Reaches, Rank, Locking, Updating;
    if w.locals[p].act == Quiet {
      NoTurn(w, p, UpdateAll);
      n, t := 0, w;
    } else {
      UpdateGoes(w, p, c, owner, level);
      n, t := UpdateEnds(WideStep(w, p, UpdateAll), p, c, owner, level);
      StepThen(w, t, p, UpdateAll, n);
      n := n + 1;
    }
  }

  // A process that has seen the revision of this very moment, and is between
  // directives, tracks what is shared.
  lemma Caught(w: Wide, p: Proc)
    requires WideInv(w) && Resting(w, p) && w.locals[p].at == w.bumps && CanLock(w.core, p)
    ensures w.locals[p].seen == w.core.rev && w.locals[p].order == w.core.fchain
    ensures OrderOk(w.core.meta, w.core.procs[p].table, w.locals[p].order)
  {
    hide Inv, TypeOk, Accounted, OrderOk, TipOk, AgreedOk, Like, Now;
    CoreKeeps(w);
    StillIdle(w.core, p);
    WholeOrder(w.locals[p].order);
    StillAgrees(w.core.fchain, w.agreed, w.locals[p].order);
  }

  // An update of all that runs alone ends, having changed nothing that is shared: the
  // process has seen the revision and tracks the shared segments, in their order.
  lemma UpdateAllAlone(w: Wide, p: Proc) returns (n: nat)
    requires WideReachable(w) && Resting(w, p) && CanLock(w.core, p) && w.locals[p].seen != w.core.rev
    ensures
      var t := WideRun(w, WideTurns(p, UpdateAll, n));
      && Resting(t, p) && t.locals[p].seen == t.core.rev && t.locals[p].order == t.core.fchain
      && OrderOk(t.core.meta, t.core.procs[p].table, t.core.fchain)
      && t.core.fchain == w.core.fchain && t.core.owner == w.core.owner && t.core.level == w.core.level
  {
    hide WideReachable, WideInv, WideRun, OrderOk, Inv, Rank;
    WideReachableSafe(w);
    CoreKeeps(w);
    LevelKnown(w.core, p);
    WideKeeps(w, p, UpdateAll);
    var u := WideStep(w, p, UpdateAll);
    assert u == Enact(w, p, Entering);
    var t;
    n, t := UpdateEnds(u, p, w.core.fchain, w.core.owner, w.core.level);
    StepThen(w, t, p, UpdateAll, n);
    n := n + 1;
    Caught(t, p);
  }

  lemma LevelKnown(s: State, p: Proc)
    requires Inv(s) && CanLock(s, p)
    ensures (s.owner == None || s.owner == Some(p)) && (s.owner == None <==> s.level == 0)
  {
    hide Names, Counts, Procs, Places, Tables, Held, LedgerOk, ListOk;
  }
}
