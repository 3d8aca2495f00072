/** What holds in every state that any schedule of any processes can reach. */
module SegmentTheorems {
  import opened Counters
  import opened Options
  import opened SegmentModel
  import opened SegmentInvariant
  import opened SegmentFrames
  import opened SegmentLists
  import opened SegmentTestSteps
  import opened SegmentLeaveSteps
  import opened SegmentSafety
  import opened SegmentAccounts
  import opened Sums

  // One turn of process `p`.
  ghost function Turn(s: State, p: Proc, c: Choice): State {
    if p in s.procs && TypeOk(s) then Step(s, p, c) else s
  }

  ghost function Run(s: State, sched: seq<(Proc, Choice)>): State {
    if sched == [] then s
    else
      var k := |sched| - 1;
      Turn(Run(s, sched[..k]), sched[k].0, sched[k].1)
  }

  ghost predicate Reachable(s: State) {
    exists s0, sched :: Init(s0) && s == Run(s0, sched)
  }

  lemma TurnKeeps(s: State, p: Proc, c: Choice)
    requires Inv(s) && Accounted(s) && TypeOk(s)
    ensures Inv(Turn(s, p, c)) && Accounted(Turn(s, p, c)) && TypeOk(Turn(s, p, c))
  {
    hide Inv, TypeOk, Accounted, Step;
    if p in s.procs {
      StepKeeps(s, p, c);
      AccountKeeps(s, p, c);
      InvTypes(Step(s, p, c));
    }
  }

  lemma InvTypes(s: State)
    requires Inv(s)
    ensures TypeOk(s)
  {
    hide Procs, Tables;
    InvTyped(s);
  }

  // Processes never refer to a segment that does not exist, so a turn is a step.
  lemma {:induction false} RunSafe(s0: State, sched: seq<(Proc, Choice)>)
    requires Init(s0)
    ensures Inv(Run(s0, sched)) && Accounted(Run(s0, sched)) && TypeOk(Run(s0, sched))
  {
    hide Inv, TypeOk, Accounted, Turn;
    if sched == [] {
      InitInv(s0);
      InitAccounted(s0);
      InvTypes(s0);
    } else {
      var k := |sched| - 1;
      RunSafe(s0, sched[..k]);
      TurnKeeps(Run(s0, sched[..k]), sched[k].0, sched[k].1);
    }
  }

  lemma InitAccounted(s: State)
    requires Init(s)
    ensures Accounted(s)
  {}

  lemma ReachableSafe(s: State)
    requires Reachable(s)
    ensures Inv(s) && Accounted(s) && TypeOk(s)
  {
    hide Inv, TypeOk, Accounted, Run, Init;
    var s0, sched :| Init(s0) && s == Run(s0, sched);
    RunSafe(s0, sched);
  }

  // ----- the list that a walk from either end visits -----

  // Starting at number `n`, the first `k` segments that names and forward
  // links lead to.
  function Walk(s: State, n: int, k: nat): seq<Obj>
    decreases k
  {
    if k == 0 || n !in s.names || s.names[n] !in s.meta then []
    else [s.names[n]] + Walk(s, s.meta[s.names[n]].next, k - 1)
  }

  function WalkBack(s: State, n: int, k: nat): seq<Obj>
    decreases k
  {
    if k == 0 || n !in s.names || s.names[n] !in s.meta then []
    else WalkBack(s, s.meta[s.names[n]].prev, k - 1) + [s.names[n]]
  }

  lemma NoSegUnnamed(s: State)
    requires Names(s)
    ensures NO_SEG !in s.names
  {}

  // Where the links of a listed segment lead.
  lemma ForwardLink(s: State, i: nat)
    requires Inv(s) && i < |s.fchain|
    ensures
      var o := s.fchain[i];
      && o in s.meta && NamedAs(s.names, s.meta[o].num, o)
      && (i + 1 == |s.fchain| ==> s.meta[o].next == NO_SEG)
      && (i + 1 < |s.fchain| ==> s.fchain[i + 1] in s.meta && s.meta[o].next == s.meta[s.fchain[i + 1]].num)
  {
    hide Names, Counts, Places, Procs, Tables, Held, LedgerOk;
    ListedNamed(s, s.fchain[i]);
    if i + 1 < |s.fchain| {
      ListedNamed(s, s.fchain[i + 1]);
    }
  }

  lemma BackwardLink(s: State, i: nat)
    requires Inv(s) && i < |s.bchain|
    ensures
      var o := s.bchain[i];
      && o in s.meta && NamedAs(s.names, s.meta[o].num, o)
      && (i == 0 ==> s.meta[o].prev == NO_SEG)
      && (i > 0 ==> s.bchain[i - 1] in s.meta && s.meta[o].prev == s.meta[s.bchain[i - 1]].num)
  {
    hide Names, Counts, Places, Procs, Tables, Held, LedgerOk;
    ListedNamed(s, s.bchain[i]);
    if i > 0 {
      var h := i - 1;
      ListedNamed(s, s.bchain[h]);
      assert s.meta[s.bchain[h + 1]].prev == s.meta[s.bchain[h]].num;
    }
  }

  lemma NothingUnnamed(s: State)
    requires Inv(s)
    ensures NO_SEG !in s.names
  {
    hide Counts, Places, Procs, Tables, Held, LedgerOk, ListOk;
    NoSegUnnamed(s);
  }

  // From the number of the segment at position `i`, a walk visits the rest.
  lemma {:induction false} WalkFrom(s: State, n: int, i: nat, k: nat)
    requires Inv(s) && i <= |s.fchain|
    requires if i == |s.fchain| then n == NO_SEG else s.fchain[i] in s.meta && n == s.meta[s.fchain[i]].num
    ensures Walk(s, n, k) == s.fchain[i..if i + k <= |s.fchain| then i + k else |s.fchain|]
    decreases k
  {
    hide Inv;
    NothingUnnamed(s);
    if i < |s.fchain| && k > 0 {
      ForwardLink(s, i);
      WalkFrom(s, s.meta[s.fchain[i]].next, i + 1, k - 1);
    }
  }

  lemma {:induction false} WalkBackFrom(s: State, n: int, i: nat, k: nat)
    requires Inv(s) && i <= |s.bchain|
    requires if i == 0 then n == NO_SEG else s.bchain[i - 1] in s.meta && n == s.meta[s.bchain[i - 1]].num
    ensures WalkBack(s, n, k) == s.bchain[if k <= i then i - k else 0..i]
    decreases k
  {
    hide Inv;
    NothingUnnamed(s);
    if i > 0 && k > 0 {
      BackwardLink(s, i - 1);
      WalkBackFrom(s, s.meta[s.bchain[i - 1]].prev, i - 1, k - 1);
    }
  }

  lemma ListEnds(s: State)
    requires Inv(s)
    ensures if s.fchain == [] then s.first == NO_SEG else s.fchain[0] in s.meta && s.first == s.meta[s.fchain[0]].num
    ensures if s.bchain == [] then s.last == NO_SEG else s.bchain[|s.bchain| - 1] in s.meta && s.last == s.meta[s.bchain[|s.bchain| - 1]].num
    ensures NoDup(s.fchain) && NoDup(s.bchain)
  {
    hide Names, Counts, Places, Procs, Tables, Held, LedgerOk;
  }

  // Neither reading of the list ever visits a segment twice.
  lemma WalkVisits(s: State, k: nat)
    requires Reachable(s)
    ensures Walk(s, s.first, k) == s.fchain[..if k <= |s.fchain| then k else |s.fchain|]
    ensures WalkBack(s, s.last, k) == s.bchain[if k <= |s.bchain| then |s.bchain| - k else 0..]
    ensures NoDup(Walk(s, s.first, k)) && NoDup(WalkBack(s, s.last, k))
  {
    hide Reachable, Inv, Accounted, TypeOk, Walk, WalkBack;
    ReachableSafe(s);
    ListEnds(s);
    WalkFrom(s, s.first, 0, k);
    WalkBackFrom(s, s.last, |s.bchain|, k);
  }

  // ----- listed segments -----

  // Whatever a walk over the list reaches is not flagged for unlinking, is what
  // its number names, and has some process counted in.
  lemma ListedAlive(s: State, k: nat, o: Obj)
    requires Reachable(s) && (o in Walk(s, s.first, k) || o in WalkBack(s, s.last, k))
    ensures o in s.meta && !s.meta[o].ctr.flag && NamedAs(s.names, s.meta[o].num, o) && 1 <= s.meta[o].ctr.count
  {
    hide Reachable, Names, Counts, Places, Procs, Tables, Held, LedgerOk, ListOk, Accounted, TypeOk, Walk, WalkBack;
    ReachableSafe(s);
    WalkVisits(s, k);
    ListedNamed(s, o);
    CountBound(s, o);
  }

  // No process is between the first and the last write of an addition or a
  // removal, as when the lock has just been given back.
  predicate Rewriting(pc: Pc) {
    match pc
    case Adding(_, a) => a == AddLink || a == AddPrev || a == AddValid || a == AddLast
    case Removing(_, m, _) => m == RemFixPrev || m == RemFixNext || m == RemReset || m == RemCount
    case _ => false
  }

  ghost predicate Settled(s: State) {
    forall p :: p in s.procs ==> !Rewriting(Base(s.procs[p].pc))
  }

  // The list read forwards is the list read backwards, its length is stored,
  // and a segment whose creator has marked it is valid exactly when listed.
  lemma SettledList(s: State)
    requires Reachable(s) && Settled(s)
    ensures 0 <= s.numShared
    ensures forall k: nat :: s.numShared <= k ==> |Walk(s, s.first, k)| == s.numShared && Walk(s, s.first, k) == WalkBack(s, s.last, k)
    ensures forall o, k: nat :: o in s.meta && !UnmarkedBy(s.procs, s.creator, o) && s.numShared <= k ==>
      (!s.meta[o].invalid <==> o in Walk(s, s.first, k))
  {
    hide Reachable, Names, Counts, Procs, Places, Tables, Held, LedgerOk, Accounted, TypeOk, Walk, WalkBack;
    ReachableSafe(s);
    SettledChains(s);
    forall k: nat | s.numShared <= k
      ensures Walk(s, s.first, k) == s.fchain && WalkBack(s, s.last, k) == s.fchain
    {
      WalkVisits(s, k);
    }
    forall o | o in s.meta && !UnmarkedBy(s.procs, s.creator, o)
      ensures !s.meta[o].invalid <==> o in s.fchain
    {
      SettledPlace(s, o);
    }
  }

  lemma SettledChains(s: State)
    requires Inv(s) && Settled(s)
    ensures s.fchain == s.bchain && s.numShared == |s.fchain|
  {
    hide Names, Counts, Places, Procs, Tables, Held, LedgerOk;
  }

  lemma SettledPlace(s: State, o: Obj)
    requires Places(s) && LockOk(s) && Settled(s) && s.fchain == s.bchain && o in s.meta && !UnmarkedBy(s.procs, s.creator, o)
    ensures !s.meta[o].invalid <==> o in s.fchain
  {
    assert Place(s, o);
  }

  // ----- unlinking -----

  predicate Unlinking(pc: Pc, o: Obj) {
    pc.Finishing? && pc.o == o
  }

  // Flagged at most once, unlinked at most once and only after that, by one
  // process.
  lemma UnlinkedOnce(s: State, o: Obj)
    requires Reachable(s) && o in s.meta
    ensures s.meta[o].unlinks <= s.meta[o].flips <= 1
    ensures forall p, q :: p in s.procs && q in s.procs && Unlinking(s.procs[p].pc, o) && Unlinking(s.procs[q].pc, o) ==> p == q
  {
    hide Reachable, Names, Counts, Places, Procs, Tables, Held, LedgerOk, ListOk, Accounted, TypeOk;
    ReachableSafe(s);
    GetSegment(s, o);
    forall p, q | p in s.procs && q in s.procs && Unlinking(s.procs[p].pc, o) && Unlinking(s.procs[q].pc, o) ensures p == q
    {
      GetProc(s, p);
      GetProc(s, q);
    }
  }

  // The name a process unlinks is the name of the segment it flagged, not of a
  // later segment of the same number.
  lemma UnlinkedName(s: State, p: Proc, o: Obj)
    requires Reachable(s) && p in s.procs && s.procs[p].pc == Finishing(o, Unlink)
    ensures o in s.meta && NamedAs(s.names, s.meta[o].num, o) && s.meta[o].ctr.flag
  {
    hide Reachable, Names, Counts, Places, Procs, Tables, Held, LedgerOk, ListOk, Accounted, TypeOk;
    ReachableSafe(s);
    FinishFacts(s, p, o, Unlink);
  }

  // The last process out read `is_invalid` without the lock, and only then
  // takes the compare-and-swap; even so no walk can still reach the segment.
  lemma FlaggedUnlisted(s: State, p: Proc, o: Obj, seen: Counter, k: nat)
    requires Reachable(s) && p in s.procs && s.procs[p].pc == Swapping(o, seen, true) && o in s.meta && s.meta[o].ctr == seen
    ensures o !in Walk(s, s.first, k) && o !in WalkBack(s, s.last, k)
    ensures s.meta[o].trackers == {p}
  {
    hide Reachable, Names, Counts, Places, Procs, Tables, Held, LedgerOk, ListOk, Accounted, TypeOk, Walk, WalkBack;
    ReachableSafe(s);
    SwapFacts(s, p, o, seen, true);
    LastUnlisted(s, p, o, seen);
    WalkVisits(s, k);
  }

  // A flag once set stays.
  lemma FlagStays(s: State, p: Proc, c: Choice, o: Obj)
    requires Reachable(s) && p in s.procs && TypeOk(s) && o in s.meta && s.meta[o].ctr.flag
    ensures o in Step(s, p, c).meta && Step(s, p, c).meta[o].ctr.flag
  {
    hide Reachable, Names, Counts, Places, Procs, Tables, Held, LedgerOk, ListOk, Accounted, TypeOk, Unsettling;
    hide IdleStep, AddStep, RemStep, OpenStep, SwapStep, FinishStep, BuildStep, ReserveStep, ChooseStep;
    ReachableSafe(s);
    PcTyped(s, p);
    var pc := s.procs[p].pc;
    if Settling(pc) || pc.Reserving? || (pc.Swapping? && s.meta[pc.o].ctr == pc.seen) || (pc.Opening? && pc.e == OpenCount) {
      FlagKept(s, p, c, o);
    } else {
      StepUnsettling(s, p, c);
      UnsettlingFlags(s, Step(s, p, c), p, o);
    }
  }

  lemma FlagKept(s: State, p: Proc, c: Choice, o: Obj)
    requires Inv(s) && TypeOk(s) && p in s.procs && o in s.meta && s.meta[o].ctr.flag
    requires Settling(s.procs[p].pc) || s.procs[p].pc.Reserving? || s.procs[p].pc.Swapping? || s.procs[p].pc.Opening?
    ensures o in Step(s, p, c).meta && Step(s, p, c).meta[o].ctr.flag
  {
    hide Names, Counts, Places, Procs, Tables, Held, LedgerOk, ListOk, TypeOk;
    hide IdleStep, AddStep, RemStep, DetachStep, ResolveStep, ReserveStep, ChooseStep, BuildStep, OpenStep, SwapStep, FinishStep, LockOk;
    PcTyped(s, p);
    var pc := s.procs[p].pc;
    GetProc(s, p);
    if pc.Reserving? || pc.Choosing? {
      CreateKeepsFlag(s, p, pc, o);
    } else if pc.Building? {
      BuildKeepsFlag(s, p, pc.o, pc.b, o);
    } else if pc.Opening? {
      OpenKeepsFlag(s, p, pc.q, pc.e, pc.w, o);
    } else {
      LeaveKeepsFlag(s, p, pc, o);
    }
  }

  lemma CreateKeepsFlag(s: State, p: Proc, pc: Pc, o: Obj)
    requires p in s.procs && o in s.meta && s.meta[o].ctr.flag
    ensures pc.Reserving? ==> ReserveStep(s, p, pc.k, pc.size).meta == s.meta
    ensures pc.Choosing? && pc.o !in s.meta ==>
      o in ChooseStep(s, p, pc.o, pc.k, pc.size).meta && ChooseStep(s, p, pc.o, pc.k, pc.size).meta[o].ctr.flag
  {}

  lemma BuildKeepsFlag(s: State, p: Proc, q: Obj, b: BuildStage, o: Obj)
    requires p in s.procs && q in s.meta && o in s.meta && s.meta[o].ctr.flag
    ensures o in BuildStep(s, p, q, b).meta && BuildStep(s, p, q, b).meta[o].ctr.flag
  {}

  lemma OpenKeepsFlag(s: State, p: Proc, q: Obj, e: OpenStage, w: OpenCaller, o: Obj)
    requires p in s.procs && q in s.meta && o in s.meta && s.meta[o].ctr.flag
    ensures o in OpenStep(s, p, q, e, w).meta && OpenStep(s, p, q, e, w).meta[o].ctr.flag
  {}

  lemma LeaveKeepsFlag(s: State, p: Proc, pc: Pc, o: Obj)
    requires p in s.procs && o in s.meta && s.meta[o].ctr.flag && ((pc.Swapping? || pc.Finishing?) && pc.o in s.meta)
    ensures pc.Swapping? ==> o in SwapStep(s, p, pc.o, pc.seen, pc.flagging).meta && SwapStep(s, p, pc.o, pc.seen, pc.flagging).meta[o].ctr.flag
    ensures pc.Finishing? ==> o in FinishStep(s, p, pc.o, pc.f).meta && FinishStep(s, p, pc.o, pc.f).meta[o].ctr.flag
  {}

  lemma UnsettlingFlags(s: State, t: State, p: Proc, o: Obj)
    requires Unsettling(s, t, p) && o in s.meta
    ensures o in t.meta && SameUse(s.meta[o], t.meta[o])
  {}

  // ----- opening -----

  // A process that opens a segment finds the name, finds the flag clear, and
  // so never waits for an unlink and never fails.
  lemma OpenNeverWaits(s: State, p: Proc)
    requires Reachable(s) && p in s.procs
    ensures s.procs[p].pc != Fault
    ensures s.procs[p].pc.Resolving? ==> s.procs[p].pc.n in s.names
    ensures s.procs[p].pc.Opening? ==> s.procs[p].pc.e != OpenWait && s.procs[p].pc.q in s.meta && !s.meta[s.procs[p].pc.q].ctr.flag
  {
    hide Reachable, Names, Counts, Places, Procs, Tables, Held, LedgerOk, ListOk, Accounted, TypeOk;
    ReachableSafe(s);
    GetProc(s, p);
    if s.procs[p].pc.Opening? {
      ListedNamed(s, s.procs[p].pc.q);
    }
  }

  // A number in a process's table denotes the segment that carries the name
  // now, however often the number was reused before.
  lemma TableCurrent(s: State, p: Proc, n: int)
    requires Reachable(s) && p in s.procs && n in s.procs[p].table
    ensures 0 <= n <= SEG_MAX && n in s.names && s.names[n] == s.procs[p].table[n]
    ensures s.names[n] in s.meta && !s.meta[s.names[n]].ctr.flag && s.meta[s.names[n]].num == n
  {
    hide Reachable, Counts, Places, Procs, Tables, Held, LedgerOk, ListOk, Accounted, TypeOk;
    ReachableSafe(s);
    EntryCurrent(s, p, n);
    assert NameOk(s, n);
    GetEntry(s, p, n);
    GetSegment(s, s.names[n]);
  }

  // The count is the number of processes that have the segment mapped: in
  // their table, or in the operation they are in the middle of.
  lemma CountExact(s: State, o: Obj)
    requires Reachable(s) && o in s.meta
    ensures s.meta[o].ctr.count == |s.meta[o].trackers|
    ensures forall p :: p in s.meta[o].trackers ==>
      p in s.procs && (InTable(s.procs[p].table, s.meta[o].num, o) || o in Holds(s.procs[p].pc))
    ensures forall p :: p in s.procs && InTable(s.procs[p].table, s.meta[o].num, o) ==> p in s.meta[o].trackers
  {
    hide Reachable, Names, Places, Procs, Tables, Held, LedgerOk, ListOk, Accounted, TypeOk;
    ReachableSafe(s);
    GetSegment(s, o);
    forall p | p in s.meta[o].trackers
      ensures p in s.procs && (InTable(s.procs[p].table, s.meta[o].num, o) || o in Holds(s.procs[p].pc))
    {
      GetHeld(s, p, o);
    }
    forall p | p in s.procs && InTable(s.procs[p].table, s.meta[o].num, o) ensures p in s.meta[o].trackers {
      GetEntry(s, p, s.meta[o].num);
    }
  }

  // ----- the lock -----

  lemma LockExclusive(s: State, p: Proc, q: Proc)
    requires Reachable(s) && p in s.procs && q in s.procs && Critical(s.procs[p].pc) && Critical(s.procs[q].pc)
    ensures p == q && s.owner == Some(p) && 1 <= s.level
  {
    hide Reachable, Names, Counts, Places, Procs, Tables, Held, LedgerOk, ListOk, Accounted, TypeOk;
    ReachableSafe(s);
    GetProc(s, p);
    GetProc(s, q);
  }

  // ----- conservation of the total size -----

  // The sizes of the segments that exist under some name.
  ghost function NamedSizes(s: State): map<nat, nat> {
    map o | o in s.meta && NamedAs(s.names, s.meta[o].num, o) :: s.meta[o].size
  }

  // The shared total is the sum of the reserved sizes; with nobody in the
  // middle of creating or unlinking, it is the sum over the existing segments.
  lemma TotalExact(s: State)
    requires Reachable(s)
    ensures s.total == Sum(s.live) <= s.maxSize
    ensures (forall p :: p in s.procs ==> !Settling(s.procs[p].pc)) ==> s.total == Sum(NamedSizes(s))
  {
    hide Reachable, Names, Places, Procs, Tables, Held, ListOk, TypeOk, Sum;
    ReachableSafe(s);
    if forall p :: p in s.procs ==> !Settling(s.procs[p].pc) {
      NamedAreLive(s);
    }
  }

  lemma NamedAreLive(s: State)
    requires Inv(s) && Accounted(s)
    requires forall p :: p in s.procs ==> !Settling(s.procs[p].pc)
    ensures NamedSizes(s) == s.live
  {
    hide Places, Procs, Tables, Held, ListOk, Sum, LedgerOk;
    forall o | o in s.live ensures o in NamedSizes(s) && NamedSizes(s)[o] == s.live[o] {
      assert Owed(s, o);
    }
    forall o | o in NamedSizes(s) ensures o in s.live {
      assert s.names[s.meta[o].num] == o;
    }
  }

  // Once every process has detached from everything, nothing is left: no name,
  // no list, no reserved byte.
  lemma NothingLeaks(s: State)
    requires Reachable(s)
    requires forall p :: p in s.procs ==> s.procs[p] == Process(Idle, map[])
    ensures s.names == map[] && s.total == 0 && s.first == NO_SEG && s.last == NO_SEG && s.numShared == 0
  {
    hide Reachable, Names, Procs, Tables, TypeOk, Places, Counts, Held;
    ReachableSafe(s);
    forall o | o in s.meta ensures s.meta[o].trackers == {} && s.meta[o].ctr.flag {
      NobodyIn(s, o);
    }
    NothingOwed(s);
    NamelessWhenDead(s);
    EmptyLists(s);
  }

  lemma NothingOwed(s: State)
    requires Accounted(s) && (forall p :: p in s.procs ==> s.procs[p].pc == Idle)
    requires forall o :: o in s.meta ==> s.meta[o].ctr.flag
    ensures s.live == map[]
  {
    assert forall o :: o in s.live ==> !Owed(s, o);
    assert s.live.Keys == {};
  }

  lemma NamelessWhenDead(s: State)
    requires Accounted(s) && s.live == map[]
    ensures s.names == map[]
  {
    assert forall n :: n in s.names.Keys ==> s.names[n] in s.live.Keys;
    assert s.names.Keys == {};
  }

  lemma NobodyIn(s: State, o: Obj)
    requires Inv(s) && Accounted(s) && o in s.meta
    requires forall p :: p in s.procs ==> s.procs[p] == Process(Idle, map[])
    ensures s.meta[o].trackers == {} && s.meta[o].ctr.flag
  {
    hide Names, Counts, Places, Procs, Tables, Held, ListOk, LedgerOk;
    GetSegment(s, o);
    forall p ensures p !in s.meta[o].trackers {
      if p in s.meta[o].trackers {
        GetHeld(s, p, o);
      }
    }
    assert InUse(s, o);
  }

  lemma EmptyLists(s: State)
    requires Inv(s) && s.names == map[] && (forall p :: p in s.procs ==> s.procs[p].pc == Idle)
    ensures s.first == NO_SEG && s.last == NO_SEG && s.numShared == 0
  {
    hide Names, Counts, Places, Procs, Tables, Held, LedgerOk;
    if s.fchain != [] {
      assert s.fchain[0] in s.fchain;
      ListedNamed(s, s.fchain[0]);
    }
  }
}
