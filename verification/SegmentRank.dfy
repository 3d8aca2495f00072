/** A process that runs alone and can have the lock ends every operation it is in: each
    of its steps lowers a rank. */
module SegmentRank {
  import opened Counters
  import opened SegmentModel
  import opened SegmentInvariant
  import opened SegmentFrames
  import opened SegmentLists
  import opened SegmentSafety
  import opened SegmentTheorems
  import opened SegmentLocks
  import opened DirectiveFrames
  import opened DirectiveSteps

  // ----- the rank -----

  // The attempts from number `k` to number `free`.
  function Dist(k: int, free: int): int {
    if free >= k then free - k else free - k + SEG_MAX + 1
  }

  function AddRank(a: AddStage): int {
    match a
    case AddLock => 17
    case AddCheck => 16
    case AddLink => 6
    case AddPrev => 5
    case AddValid => 4
    case AddLast => 3
    case AddBump => 2
    case AddUnlock => 1
  }

  function RemRank(m: RemStage): int {
    match m
    case RemPeek => 10
    case RemLock => 9
    case RemCheck => 8
    case RemMark => 7
    case RemFixPrev => 6
    case RemFixNext => 5
    case RemReset => 4
    case RemCount => 3
    case RemBump => 2
    case RemUnlock => 1
  }

  function BuildRank(b: BuildStage): int {
    match b
    case Zeroed => 21
    case Counted => 20
    case Marked => 19
    case Unlisted => 18
  }

  function FinishRank(f: FinishStage): int {
    match f
    case Unlink => 3
    case Post => 2
    case Refund => 1
  }

  // A swap that is bound to fail has the loop before it once more.
  function SwapRank(meta: map<Obj, Meta>, o: Obj, seen: Counter): int {
    if o in meta && meta[o].ctr == seen then 4 else 16
  }

  function StageRank(meta: map<Obj, Meta>, b: Pc, free: int): int {
    match b
    case Reserving(k, _) => 23 + Dist(k, free)
    case Choosing(_, k, _) => 22 + Dist(k, free)
    case Building(_, st) => BuildRank(st)
    case Adding(_, a) => AddRank(a)
    case Removing(o, m, r) => RemRank(m) + (if r == Explicit then 0 else SwapRank(meta, o, r.seen))
    case Detaching(_) => 15
    case Swapping(o, seen, _) => SwapRank(meta, o, seen)
    case Finishing(_, f) => FinishRank(f)
    case _ => 0
  }

  // How far a segment has been opened.
  function Opened(pc: Pc): int {
    match pc
    case Resolving(_, _) => 1
    case Opening(_, e, _) => (match e case OpenCount => 2 case OpenCheck => 3 case OpenTrack => 4 case OpenWait => 0)
    case _ => 0
  }

  // The listed segments that a process does not track.
  ghost function Untracked(meta: map<Obj, Meta>, fchain: seq<Obj>, table: map<int, Obj>): set<Obj> {
    set o | o in fchain && !(o in meta && meta[o].num in table)
  }

  ghost function Rank(s: State, p: Proc, free: int): int
    requires p in s.procs
  {
    var x := s.procs[p];
    StageRank(s.meta, Base(x.pc), free) + 5 * |Untracked(s.meta, s.fchain, x.table)| - Opened(x.pc)
  }

  // A number is needed only while a segment is created, and `free` names nothing.
  ghost predicate Numbered(s: State, p: Proc, free: int)
    requires p in s.procs
  {
    0 <= free <= SEG_MAX && (s.procs[p].pc.Reserving? || s.procs[p].pc.Choosing? ==> free !in s.names)
  }

  // ----- what is tracked -----

  lemma Fewer(a: set<Obj>, b: set<Obj>)
    requires a <= b
    ensures |a| <= |b| && (a < b ==> |a| < |b|)
  {
    assert b == a + (b - a);
  }

  lemma SmallerSet(s: State, t: State, p: Proc, o: Obj)
    requires p in s.procs && p in t.procs
    requires forall x :: x in s.meta ==> x in t.meta && t.meta[x].num == s.meta[x].num
    requires forall x :: x in t.fchain ==> x in s.fchain || (x in t.meta && t.meta[x].num in t.procs[p].table)
    requires forall x :: x in s.fchain && x in s.meta && s.meta[x].num in s.procs[p].table ==> t.meta[x].num in t.procs[p].table
    ensures
      var before, after := Untracked(s.meta, s.fchain, s.procs[p].table), Untracked(t.meta, t.fchain, t.procs[p].table);
      |after| <= |before| && (o in before && o !in after ==> |after| < |before|)
  {
    var before, after := Untracked(s.meta, s.fchain, s.procs[p].table), Untracked(t.meta, t.fchain, t.procs[p].table);
    assert after <= before;
    Fewer(after, before);
  }

  // ----- what a step does to the list, and to the counters of other segments -----

  ghost predicate ListStep(s: State, t: State, pc: Pc) {
    || t.fchain == s.fchain
    || (pc.Adding? && pc.a == AddLink && t.fchain == s.fchain + [pc.o])
    || (pc.Removing? && pc.m == RemFixPrev && t.fchain == Without(s.fchain, pc.o))
  }

  lemma GoList(u: State, p: Proc, pc: Pc)
    requires p in u.procs
    ensures Goto(u, p, pc).fchain == u.fchain && Goto(u, p, pc).meta == u.meta
  {}

  lemma WriteList(u: State, o: Obj, m: Meta)
    ensures Write(u, o, m).fchain == u.fchain && Write(u, o, m).procs == u.procs && Write(u, o, m).meta == u.meta[o := m]
  {}

  lemma HeldList(u: State, p: Proc)
    ensures Acquire(u, p).fchain == u.fchain && Acquire(u, p).meta == u.meta && Acquire(u, p).procs == u.procs
    ensures Release(u, p).fchain == u.fchain && Release(u, p).meta == u.meta && Release(u, p).procs == u.procs
  {}

  // All counters stay.
  ghost predicate SameCounters(s: State, t: State) {
    forall o :: o in s.meta ==> o in t.meta && t.meta[o].ctr == s.meta[o].ctr
  }

  lemma AddList(s: State, p: Proc, o: Obj, a: AddStage)
    requires TypeOk(s) && p in s.procs && s.procs[p].pc == Adding(o, a) && o in s.meta
    ensures ListStep(s, AddStep(s, p, o, a), Adding(o, a)) && SameCounters(s, AddStep(s, p, o, a))
  {
    hide TypeOk, Goto, Write, Acquire, Release;
    var x := s.meta[o];
    HeldList(s, p);
    match a
    case AddLock => if CanLock(s, p) { GoList(Acquire(s, p), p, Adding(o, AddCheck)); }
    case AddCheck => GoList(s.(numShared := s.numShared + 1), p, Adding(o, AddLink));
    case AddLink => LinkList(s, p, o);
    case AddPrev => WriteList(s, o, x.(prev := s.last)); GoList(Write(s, o, x.(prev := s.last)), p, Adding(o, AddValid));
    case AddValid => WriteList(s, o, x.(invalid := false)); GoList(Write(s, o, x.(invalid := false)), p, Adding(o, AddLast));
    case AddLast => GoList(s.(last := x.num, bchain := s.bchain + [o]), p, Adding(o, AddBump));
    case AddBump => GoList(s.(rev := NextRev(s.rev)), p, Adding(o, AddUnlock));
    case AddUnlock => GoList(Release(s, p), p, Idle);
  }

  lemma LinkList(s: State, p: Proc, o: Obj)
    requires TypeOk(s) && p in s.procs && o in s.meta
    ensures
      var t := AddLinkStep(s, p, o);
      && SameCounters(s, t) && p in t.procs
      && ((t.fchain == s.fchain && t.procs[p].pc == Resolving(s.last, ForAdd(o))) || (t.fchain == s.fchain + [o] && t.procs[p].pc == Adding(o, AddPrev)))
  {
    hide TypeOk, Goto, Write;
    if s.first == NO_SEG {
      var u := s.(first := s.meta[o].num, fchain := s.fchain + [o]);
      GoList(u, p, Adding(o, AddPrev));
      Going(u, p, Adding(o, AddPrev));
    } else if s.last in s.procs[p].table {
      NextTyped(s, p, s.last);
      var z, u := s.procs[p].table[s.last], s.(fchain := s.fchain + [o]);
      var m := s.meta[z].(next := s.meta[o].num);
      WriteList(u, z, m);
      GoList(Write(u, z, m), p, Adding(o, AddPrev));
      Going(Write(u, z, m), p, Adding(o, AddPrev));
    } else {
      GoList(s, p, Resolving(s.last, ForAdd(o)));
      Going(s, p, Resolving(s.last, ForAdd(o)));
    }
  }

  lemma RemList(s: State, p: Proc, o: Obj, m: RemStage, r: RemoveCaller)
    requires TypeOk(s) && p in s.procs && s.procs[p].pc == Removing(o, m, r) && o in s.meta
    ensures ListStep(s, RemStep(s, p, o, m, r), Removing(o, m, r)) && SameCounters(s, RemStep(s, p, o, m, r))
  {
    hide TypeOk, Goto, Write, Acquire, Release, FixPrevStep, FixNextStep, Without;
    var x := s.meta[o];
    HeldList(s, p);
    match m
    case RemPeek => GoList(s, p, if x.invalid then AfterRemove(o, r) else Removing(o, RemLock, r));
    case RemLock => if CanLock(s, p) { GoList(Acquire(s, p), p, Removing(o, RemCheck, r)); }
    case RemCheck => GoList(s, p, Removing(o, if x.invalid then RemUnlock else RemMark, r));
    case RemMark => WriteList(s, o, x.(invalid := true)); GoList(Write(s, o, x.(invalid := true)), p, Removing(o, RemFixPrev, r));
    case RemFixPrev => PrevList(s, p, o, r);
    case RemFixNext => NextList(s, p, o, r);
    case RemReset =>
      WriteList(s, o, x.(next := NO_SEG, prev := NO_SEG));
      GoList(Write(s, o, x.(next := NO_SEG, prev := NO_SEG)), p, Removing(o, RemCount, r));
    case RemCount => GoList(s.(numShared := s.numShared - 1), p, Removing(o, RemBump, r));
    case RemBump => GoList(s.(rev := NextRev(s.rev)), p, Removing(o, RemUnlock, r));
    case RemUnlock => GoList(Release(s, p), p, AfterRemove(o, r));
  }

  lemma PrevList(s: State, p: Proc, o: Obj, r: RemoveCaller)
    requires TypeOk(s) && p in s.procs && o in s.meta
    ensures
      var t := FixPrevStep(s, p, o, r);
      && SameCounters(s, t) && p in t.procs
      && ((t.fchain == s.fchain && t.procs[p].pc == Resolving(s.meta[o].prev, ForPrev(o, r)))
          || (t.fchain == Without(s.fchain, o) && t.procs[p].pc == Removing(o, RemFixNext, r)))
  {
    hide TypeOk, Goto, Write, Without;
    var x, table, u := s.meta[o], s.procs[p].table, s.(fchain := Without(s.fchain, o));
    if x.num == s.first {
      var v := s.(first := x.next, fchain := Without(s.fchain, o));
      GoList(v, p, Removing(o, RemFixNext, r));
      Going(v, p, Removing(o, RemFixNext, r));
    } else if x.prev in table {
      NextTyped(s, p, x.prev);
      var m := s.meta[table[x.prev]].(next := x.next);
      WriteList(u, table[x.prev], m);
      GoList(Write(u, table[x.prev], m), p, Removing(o, RemFixNext, r));
      Going(Write(u, table[x.prev], m), p, Removing(o, RemFixNext, r));
    } else {
      GoList(s, p, Resolving(x.prev, ForPrev(o, r)));
      Going(s, p, Resolving(x.prev, ForPrev(o, r)));
    }
  }

  lemma NextList(s: State, p: Proc, o: Obj, r: RemoveCaller)
    requires TypeOk(s) && p in s.procs && o in s.meta
    ensures SameCounters(s, FixNextStep(s, p, o, r)) && FixNextStep(s, p, o, r).fchain == s.fchain
  {
    hide TypeOk, Goto, Write, Without;
    var x, table, u := s.meta[o], s.procs[p].table, s.(bchain := Without(s.bchain, o));
    if x.num == s.last {
      GoList(s.(last := x.prev, bchain := Without(s.bchain, o)), p, Removing(o, RemReset, r));
    } else if x.next in table {
      NextTyped(s, p, x.next);
      var m := s.meta[table[x.next]].(prev := x.prev);
      WriteList(u, table[x.next], m);
      GoList(Write(u, table[x.next], m), p, Removing(o, RemReset, r));
    } else {
      GoList(s, p, Resolving(x.next, ForNext(o, r)));
    }
  }

  lemma OtherList(s: State, p: Proc)
    requires TypeOk(s) && p in s.procs
    requires var pc := s.procs[p].pc; !pc.Idle? && !pc.Adding? && !pc.Removing?
    ensures Step(s, p, Lock).fchain == s.fchain
  {
    hide TypeOk, Goto, Write;
    PcTyped(s, p);
    match s.procs[p].pc
    case Fault =>
    case Reserving(k, size) => MakeList(s, p, s.procs[p].pc);
    case Choosing(o, k, size) => MakeList(s, p, s.procs[p].pc);
    case Building(o, b) => BuildList(s, p, o, b);
    case Resolving(n, v) => if n in s.names { GoList(s, p, Opening(s.names[n], OpenCount, v)); } else { GoList(s, p, Fault); }
    case Opening(q, e, v) => OpenList(s, p, q, e, v);
    case Detaching(o) => EndList(s, p, s.procs[p].pc);
    case Swapping(o, seen, flagging) => EndList(s, p, s.procs[p].pc);
    case Finishing(o, f) => EndList(s, p, s.procs[p].pc);
  }

  lemma MakeList(s: State, p: Proc, pc: Pc)
    requires p in s.procs
    ensures pc.Reserving? ==> ReserveStep(s, p, pc.k, pc.size).fchain == s.fchain
    ensures pc.Choosing? ==> ChooseStep(s, p, pc.o, pc.k, pc.size).fchain == s.fchain
  {}

  lemma BuildList(s: State, p: Proc, o: Obj, b: BuildStage)
    requires p in s.procs && o in s.meta
    ensures BuildStep(s, p, o, b).fchain == s.fchain
  {}

  lemma OpenList(s: State, p: Proc, q: Obj, e: OpenStage, w: OpenCaller)
    requires p in s.procs && q in s.meta
    ensures OpenStep(s, p, q, e, w).fchain == s.fchain
    ensures forall o :: o in s.meta && o != q ==> o in OpenStep(s, p, q, e, w).meta && OpenStep(s, p, q, e, w).meta[o] == s.meta[o]
  {}

  lemma EndList(s: State, p: Proc, pc: Pc)
    requires p in s.procs
    ensures pc.Detaching? && pc.o in s.meta ==> DetachStep(s, p, pc.o).fchain == s.fchain
    ensures pc.Swapping? && pc.o in s.meta ==> SwapStep(s, p, pc.o, pc.seen, pc.flagging).fchain == s.fchain
    ensures pc.Finishing? && pc.o in s.meta ==> FinishStep(s, p, pc.o, pc.f).fchain == s.fchain
  {}

  lemma StepList(s: State, p: Proc)
    requires TypeOk(s) && p in s.procs && s.procs[p].pc != Idle
    ensures ListStep(s, Step(s, p, Lock), s.procs[p].pc)
    ensures s.procs[p].pc.Adding? || s.procs[p].pc.Removing? ==> SameCounters(s, Step(s, p, Lock))
  {
    hide TypeOk, AddStep, RemStep, SameCounters;
    PcTyped(s, p);
    var pc := s.procs[p].pc;
    if pc.Adding? {
      AddList(s, p, pc.o, pc.a);
    } else if pc.Removing? {
      RemList(s, p, pc.o, pc.m, pc.r);
    } else {
      OtherList(s, p);
    }
  }

  // ----- no step of an operation makes the process track less of the list -----

  lemma TracksStay(s: State, p: Proc)
    requires Inv(s) && TypeOk(s) && p in s.procs && s.procs[p].pc != Idle
    ensures p in Step(s, p, Lock).procs
    ensures
      var t := Step(s, p, Lock);
      var before, after := Untracked(s.meta, s.fchain, s.procs[p].table), Untracked(t.meta, t.fchain, t.procs[p].table);
      |after| <= |before| && (s.procs[p].pc.Opening? && s.procs[p].pc.e == OpenTrack ==> |after| < |before|)
  {
    hide Inv, TypeOk, Step, Moved, Untracked, TableAfter;
    var t, pc := Step(s, p, Lock), s.procs[p].pc;
    if pc.Resolving? {
      NamedThere(s, p);
    }
    TableIs(s, p, Lock);
    StepList(s, p);
    StepMoves(s, p, Lock);
    MovedParts(s, t, p);
    OnlyJoins(s, t, p);
    KeepsListed(s, p, t);
    var o := if pc.Opening? then pc.q else 0;
    SmallerSet(s, t, p, o);
    if pc.Opening? && pc.e == OpenTrack {
      OpensUntracked(s, p);
      TracksIt(s, t, p);
    }
  }

  lemma OnlyJoins(s: State, t: State, p: Proc)
    requires Inv(s) && TypeOk(s) && p in s.procs && s.procs[p].pc != Idle && ListStep(s, t, s.procs[p].pc)
    requires p in t.procs && t.procs[p].table == TableAfter(s, p, Lock) && forall x :: x in s.meta ==> x in t.meta && t.meta[x].num == s.meta[x].num
    ensures forall x :: x in t.fchain ==> x in s.fchain || (x in t.meta && t.meta[x].num in t.procs[p].table)
  {
    hide Names, Counts, Places, Tables, Held, LedgerOk, LockOk, TypeOk, Without;
    var pc := s.procs[p].pc;
    GetProc(s, p);
    NoDupChains(s);
    if pc.Removing? {
      WithoutMembers(s.fchain, pc.o);
    }
  }

  // The only entry an operation takes out is that of a segment that is not listed.
  lemma KeepsListed(s: State, p: Proc, t: State)
    requires Inv(s) && TypeOk(s) && p in s.procs && s.procs[p].pc != Idle
    requires p in t.procs && t.procs[p].table == TableAfter(s, p, Lock) && forall x :: x in s.meta ==> x in t.meta && t.meta[x].num == s.meta[x].num
    ensures forall x :: x in s.fchain && x in s.meta && s.meta[x].num in s.procs[p].table ==> t.meta[x].num in t.procs[p].table
  {
    hide Names, Counts, Places, Tables, Held, LedgerOk, LockOk, TypeOk, ListOk;
    var pc := s.procs[p].pc;
    GetProc(s, p);
    if pc.Adding? && pc.a == AddCheck {
      forall x | x in s.fchain && x in s.meta && s.meta[x].num in s.procs[p].table ensures s.meta[x].num != s.meta[pc.o].num {
        GetEntry(s, p, s.meta[pc.o].num);
        EntryListed(s, p, x);
      }
    }
  }

  lemma OpensUntracked(s: State, p: Proc)
    requires Inv(s) && p in s.procs && s.procs[p].pc.Opening?
    ensures var q := s.procs[p].pc.q; q in Untracked(s.meta, s.fchain, s.procs[p].table) && q in s.meta && q in s.fchain
    ensures s.procs[p].pc.e != OpenWait
  {
    hide Names, Counts, Places, Tables, Held, LedgerOk, LockOk, ListOk;
    GetProc(s, p);
  }

  lemma TracksIt(s: State, t: State, p: Proc)
    requires TypeOk(s) && p in s.procs && s.procs[p].pc.Opening? && s.procs[p].pc.e == OpenTrack && s.procs[p].pc.q in s.meta
    requires p in t.procs && t.procs[p].table == TableAfter(s, p, Lock) && forall x :: x in s.meta ==> x in t.meta && t.meta[x].num == s.meta[x].num
    ensures s.procs[p].pc.q !in Untracked(t.meta, t.fchain, t.procs[p].table)
  {
    hide TypeOk;
  }

  // ----- every step of an operation comes nearer to its end -----

  // Where a step leads, by the parts of the rank that it can change.
  ghost predicate Nearer(s: State, t: State, p: Proc, free: int) {
    && p in s.procs && p in t.procs
    && StageRank(t.meta, Base(t.procs[p].pc), free) - Opened(t.procs[p].pc)
         < StageRank(s.meta, Base(s.procs[p].pc), free) - Opened(s.procs[p].pc)
           + (if s.procs[p].pc.Opening? && s.procs[p].pc.e == OpenTrack then 5 else 0)
    && Numbered(t, p, free)
  }

  lemma AddNearer(s: State, p: Proc, o: Obj, a: AddStage, free: int)
    requires TypeOk(s) && p in s.procs && s.procs[p].pc == Adding(o, a) && o in s.meta && CanLock(s, p) && 0 <= free <= SEG_MAX
    ensures Nearer(s, AddStep(s, p, o, a), p, free)
  {
    hide TypeOk, AddStep;
    AddTable(s, p, o, a);
    if a == AddLock {
      AddLockGoes(s, p, o);
    }
  }

  lemma RemNearer(s: State, p: Proc, o: Obj, m: RemStage, r: RemoveCaller, free: int)
    requires TypeOk(s) && p in s.procs && s.procs[p].pc == Removing(o, m, r) && o in s.meta && CanLock(s, p) && 0 <= free <= SEG_MAX
    ensures Nearer(s, RemStep(s, p, o, m, r), p, free)
  {
    hide TypeOk, RemStep;
    RemTable(s, p, o, m, r);
    RemList(s, p, o, m, r);
    if m == RemLock {
      RemLockGoes(s, p, o, r);
    }
  }

  lemma OpenNearer(s: State, p: Proc, free: int)
    requires Inv(s) && TypeOk(s) && p in s.procs && (s.procs[p].pc.Resolving? || s.procs[p].pc.Opening?) && 0 <= free <= SEG_MAX
    ensures Nearer(s, Step(s, p, Lock), p, free)
  {
    hide Inv, TypeOk, Step, StageRank;
    var t, pc := Step(s, p, Lock), s.procs[p].pc;
    ResumeBase(pc.w);
    if pc.Resolving? {
      NamedThere(s, p);
    } else {
      OpensUntracked(s, p);
      ListedNamed(s, pc.q);
    }
    OtherTable(s, p, Lock);
    OpenApart(s, p);
    SameStage(s.meta, t.meta, Resume(pc.w), free);
  }

  lemma ResumeBase(w: OpenCaller)
    ensures var b := Resume(w); Base(b) == b && Opened(b) == 0 && !b.Reserving? && !b.Choosing?
  {}

  // Opening a segment leaves the counters of the others alone.
  lemma OpenApart(s: State, p: Proc)
    requires Inv(s) && TypeOk(s) && p in s.procs && (s.procs[p].pc.Resolving? || s.procs[p].pc.Opening?)
    ensures
      var t, b := Step(s, p, Lock), Resume(s.procs[p].pc.w);
      forall o :: o in BaseObjs(b) ==> o in s.meta && o in t.meta && t.meta[o] == s.meta[o]
  {
    hide Names, Counts, Places, Tables, Held, LedgerOk, LockOk, ListOk, TypeOk, Goto, Write;
    GetProc(s, p);
    PcTyped(s, p);
    BaseTyped(s, p);
    match s.procs[p].pc
    case Resolving(n, v) => GoList(s, p, Opening(s.names[n], OpenCount, v));
    case Opening(q, e, v) => OpenList(s, p, q, e, v);
  }

  lemma BaseTyped(s: State, p: Proc)
    requires TypeOk(s) && p in s.procs
    ensures forall o :: o in BaseObjs(Base(s.procs[p].pc)) ==> o in s.meta
  {
    assert forall o :: o in BaseObjs(Base(s.procs[p].pc)) ==> o in PcObjs(s.procs[p].pc);
  }

  lemma SameStage(meta: map<Obj, Meta>, meta': map<Obj, Meta>, b: Pc, free: int)
    requires forall o :: o in BaseObjs(b) ==> o in meta && o in meta' && meta'[o].ctr == meta[o].ctr
    ensures StageRank(meta', b, free) == StageRank(meta, b, free)
  {
    if b.Removing? || b.Swapping? {
      assert b.o in BaseObjs(b);
    }
  }

  lemma EndNearer(s: State, p: Proc, free: int)
    requires Inv(s) && TypeOk(s) && p in s.procs && (s.procs[p].pc.Detaching? || s.procs[p].pc.Swapping? || s.procs[p].pc.Finishing?)
    requires 0 <= free <= SEG_MAX
    ensures Nearer(s, Step(s, p, Lock), p, free)
  {
    hide Names, Counts, Places, Tables, Held, LedgerOk, LockOk, ListOk, TypeOk, Goto, Write;
    PcTyped(s, p);
    GetProc(s, p);
    match s.procs[p].pc
    case Detaching(o) => DetachEnds(s, p, o);
    case Swapping(o, seen, flagging) => SwapEnds(s, p, o, seen, flagging);
    case Finishing(o, f) => FinishEnds(s, p, o, f);
  }

  lemma DetachEnds(s: State, p: Proc, o: Obj)
    requires p in s.procs && o in s.meta
    ensures
      var t, seen := DetachStep(s, p, o), s.meta[o].ctr;
      && p in t.procs && t.meta == s.meta && t.names == s.names
      && t.procs[p].pc == if !seen.flag && Down(seen).count == 0 then Removing(o, RemPeek, FromDetach(seen)) else Swapping(o, seen, false)
  {}

  lemma SwapEnds(s: State, p: Proc, o: Obj, seen: Counter, flagging: bool)
    requires p in s.procs && o in s.meta
    ensures
      var t := SwapStep(s, p, o, seen, flagging);
      p in t.procs && t.procs[p].pc == if s.meta[o].ctr != seen then Detaching(o) else if flagging && !seen.flag then Finishing(o, Unlink) else Idle
  {}

  lemma FinishEnds(s: State, p: Proc, o: Obj, f: FinishStage)
    requires p in s.procs && o in s.meta && (f == Unlink ==> s.meta[o].num in s.names && s.names[s.meta[o].num] in s.meta)
    ensures
      var t := FinishStep(s, p, o, f);
      p in t.procs && t.procs[p].pc == match f case Unlink => Finishing(o, Post) case Post => Finishing(o, Refund) case Refund => Idle
  {}

  lemma MakeNearer(s: State, p: Proc, free: int)
    requires Inv(s) && TypeOk(s) && p in s.procs && (s.procs[p].pc.Reserving? || s.procs[p].pc.Choosing? || s.procs[p].pc.Building?)
    requires Numbered(s, p, free)
    ensures Nearer(s, Step(s, p, Lock), p, free)
  {
    hide Names, Counts, Places, Tables, Held, LedgerOk, LockOk, ListOk, TypeOk, Goto, Write, Track;
    PcTyped(s, p);
    GetProc(s, p);
    match s.procs[p].pc
    case Reserving(k, size) => ReserveEnds(s, p, k, size);
    case Choosing(o, k, size) => ChooseEnds(s, p, o, k, size);
    case Building(o, b) => BuildTable(s, p, o, b);
  }

  lemma ReserveEnds(s: State, p: Proc, k: int, size: nat)
    requires p in s.procs
    ensures
      var t := ReserveStep(s, p, k, size);
      p in t.procs && t.names == s.names && t.procs[p].pc == if s.total + size > s.maxSize then Idle else Choosing(s.nextObj, k, size)
  {}

  lemma ChooseEnds(s: State, p: Proc, o: Obj, k: int, size: nat)
    requires p in s.procs
    ensures
      var t := ChooseStep(s, p, o, k, size);
      && p in t.procs && t.procs[p].pc == (if k in s.names then Choosing(o, NextNumber(k), size) else Building(o, Zeroed))
      && (k in s.names ==> t.names == s.names)
  {}

  lemma StepNearer(s: State, p: Proc, free: int)
    requires Inv(s) && TypeOk(s) && p in s.procs && s.procs[p].pc != Idle && CanLock(s, p) && Numbered(s, p, free)
    ensures Nearer(s, Step(s, p, Lock), p, free)
  {
    hide Inv, TypeOk, Nearer, AddStep, RemStep;
    PcTyped(s, p);
    NotFault(s, p);
    var pc := s.procs[p].pc;
    if pc.Adding? {
      AddNearer(s, p, pc.o, pc.a, free);
    } else if pc.Removing? {
      RemNearer(s, p, pc.o, pc.m, pc.r, free);
    } else if pc.Resolving? || pc.Opening? {
      OpenNearer(s, p, free);
    } else if pc.Reserving? || pc.Choosing? || pc.Building? {
      MakeNearer(s, p, free);
    } else {
      EndNearer(s, p, free);
    }
  }

  lemma RankDrops(s: State, p: Proc, free: int)
    requires Inv(s) && TypeOk(s) && p in s.procs && s.procs[p].pc != Idle && CanLock(s, p) && Numbered(s, p, free)
    ensures
      var t := Step(s, p, Lock);
      && Inv(t) && TypeOk(t) && p in t.procs && CanLock(t, p) && Numbered(t, p, free)
      && 0 <= Rank(s, p, free) && Rank(t, p, free) < Rank(s, p, free)
  {
    hide Inv, TypeOk, Step, StageRank, Untracked, LockTurn;
    StepKeeps(s, p, Lock);
    InvTypes(Step(s, p, Lock));
    StepNearer(s, p, free);
    TracksStay(s, p);
    StepLocks(s, p, Lock);
    RankNat(s, p, free);
  }

  lemma RankNat(s: State, p: Proc, free: int)
    requires Inv(s) && p in s.procs && Numbered(s, p, free)
    ensures 0 <= Rank(s, p, free)
  {
    hide Names, Counts, Places, Tables, Held, LedgerOk, LockOk, ListOk;
    GetProc(s, p);
    if s.procs[p].pc.Resolving? {
      ResolvesUntracked(s, p);
    } else if s.procs[p].pc.Opening? {
      OpensUntracked(s, p);
    }
  }

  lemma ResolvesUntracked(s: State, p: Proc)
    requires Inv(s) && p in s.procs && s.procs[p].pc.Resolving?
    ensures |Untracked(s.meta, s.fchain, s.procs[p].table)| >= 1
  {
    hide Counts, Places, Tables, Held, LedgerOk, LockOk, ListOk;
    GetProc(s, p);
    var q := s.names[s.procs[p].pc.n];
    assert NameOk(s, s.procs[p].pc.n);
    assert q in Untracked(s.meta, s.fchain, s.procs[p].table);
  }
}
