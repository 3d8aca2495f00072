/** Every taking of the process lock is matched: what the lock's level is made of. */
module SegmentLocks {
  import opened Counters
  import opened Options
  import opened SegmentModel
  import opened SegmentInvariant
  import opened SegmentFrames
  import opened SegmentSafety
  import opened SegmentAccounts
  import opened SegmentTheorems
  import opened DirectiveFrames
  import opened DirectiveSteps

  // In the part of an append or a removal that runs under the lock.
  predicate InSection(b: Pc) {
    match b
    case Adding(_, a) => a != AddLock
    case Removing(_, m, _) => m != RemPeek && m != RemLock
    case _ => false
  }

  function Sections(pc: Pc): nat {
    if InSection(Base(pc)) then 1 else 0
  }

  // How many locks a process has of its own: those it chose to take and has not given
  // back, and one for each append that was refused in the middle.
  function OwnAfter(s: State, p: Proc, c: Choice, own: nat): nat
    requires p in s.procs
  {
    match s.procs[p].pc
    case Idle => if c == Lock && CanLock(s, p) then own + 1 else if c == Unlock && s.owner == Some(p) && own > 0 then own - 1 else own
    case Adding(_, a) => if a == AddCheck && s.numShared >= s.maxSegs then own + 1 else own
    case _ => own
  }

  // The level is the owner's own locks and its section; nobody else has any.
  ghost predicate LocksOk(s: State, own: map<Proc, nat>) {
    && own.Keys == s.procs.Keys
    && forall p :: p in s.procs && p in own ==>
         if s.owner == Some(p) then s.level == own[p] + Sections(s.procs[p].pc) else own[p] == 0 && Sections(s.procs[p].pc) == 0
  }

  // ----- what one step does to the lock -----

  // A step of `p` takes the lock once more, gives it back once, or leaves it alone.
  datatype Turning = Takes | Gives | Leaves

  function LockTurn(s: State, p: Proc, c: Choice): Turning
    requires p in s.procs
  {
    match s.procs[p].pc
    case Idle => if c == Lock && CanLock(s, p) then Takes else if c == Unlock then Gives else Leaves
    case Adding(_, a) => if a == AddLock && CanLock(s, p) then Takes else if a == AddUnlock then Gives else Leaves
    case Removing(_, m, _) => if m == RemLock && CanLock(s, p) then Takes else if m == RemUnlock then Gives else Leaves
    case _ => Leaves
  }

  ghost predicate Turned(s: State, t: State, p: Proc, turn: Turning) {
    match turn
    case Takes => t.owner == Some(p) && t.level == s.level + 1
    case Gives => t.owner == Release(s, p).owner && t.level == Release(s, p).level
    case Leaves => t.owner == s.owner && t.level == s.level
  }

  lemma GoLock(u: State, p: Proc, pc: Pc)
    requires p in u.procs
    ensures Goto(u, p, pc).owner == u.owner && Goto(u, p, pc).level == u.level
  {}

  lemma WriteLock(u: State, o: Obj, m: Meta)
    ensures Write(u, o, m).owner == u.owner && Write(u, o, m).level == u.level && Write(u, o, m).procs == u.procs
  {}

  lemma TrackLock(u: State, p: Proc, n: int, o: Obj, pc: Pc)
    requires p in u.procs
    ensures Track(u, p, n, o, pc).owner == u.owner && Track(u, p, n, o, pc).level == u.level
    ensures Untrack(u, p, n, pc).owner == u.owner && Untrack(u, p, n, pc).level == u.level
  {}

  lemma AddLocks(s: State, p: Proc, o: Obj, a: AddStage)
    requires TypeOk(s) && p in s.procs && s.procs[p].pc == Adding(o, a) && o in s.meta
    ensures Turned(s, AddStep(s, p, o, a), p, LockTurn(s, p, Lock))
  {
    hide TypeOk, Goto, Write, Track, Untrack, Release, AddLinkStep;
    var x := s.meta[o];
    HeldApart(s, p);
    match a
    case AddLock => if CanLock(s, p) { GoLock(Acquire(s, p), p, Adding(o, AddCheck)); }
    case AddCheck =>
      TrackLock(s, p, x.num, o, Detaching(o));
      GoLock(s.(numShared := s.numShared + 1), p, Adding(o, AddLink));
    case AddLink => LinkLock(s, p, o);
    case AddPrev => WriteLock(s, o, x.(prev := s.last)); GoLock(Write(s, o, x.(prev := s.last)), p, Adding(o, AddValid));
    case AddValid => WriteLock(s, o, x.(invalid := false)); GoLock(Write(s, o, x.(invalid := false)), p, Adding(o, AddLast));
    case AddLast => GoLock(s.(last := x.num, bchain := s.bchain + [o]), p, Adding(o, AddBump));
    case AddBump => GoLock(s.(rev := NextRev(s.rev)), p, Adding(o, AddUnlock));
    case AddUnlock => GoLock(Release(s, p), p, Idle);
  }

  lemma LinkLock(s: State, p: Proc, o: Obj)
    requires TypeOk(s) && p in s.procs && o in s.meta
    ensures AddLinkStep(s, p, o).owner == s.owner && AddLinkStep(s, p, o).level == s.level
  {
    hide TypeOk, Goto, Write;
    if s.first == NO_SEG {
      GoLock(s.(first := s.meta[o].num, fchain := s.fchain + [o]), p, Adding(o, AddPrev));
    } else if s.last in s.procs[p].table {
      NextTyped(s, p, s.last);
      var z, u := s.procs[p].table[s.last], s.(fchain := s.fchain + [o]);
      WriteLock(u, z, s.meta[z].(next := s.meta[o].num));
      GoLock(Write(u, z, s.meta[z].(next := s.meta[o].num)), p, Adding(o, AddPrev));
    } else {
      GoLock(s, p, Resolving(s.last, ForAdd(o)));
    }
  }

  lemma RemLocks(s: State, p: Proc, o: Obj, m: RemStage, r: RemoveCaller)
    requires TypeOk(s) && p in s.procs && s.procs[p].pc == Removing(o, m, r) && o in s.meta
    ensures Turned(s, RemStep(s, p, o, m, r), p, LockTurn(s, p, Lock))
  {
    hide TypeOk, Goto, Write, Release, FixPrevStep, FixNextStep;
    var x := s.meta[o];
    HeldApart(s, p);
    match m
    case RemPeek => GoLock(s, p, if x.invalid then AfterRemove(o, r) else Removing(o, RemLock, r));
    case RemLock => if CanLock(s, p) { GoLock(Acquire(s, p), p, Removing(o, RemCheck, r)); }
    case RemCheck => GoLock(s, p, Removing(o, if x.invalid then RemUnlock else RemMark, r));
    case RemMark => WriteLock(s, o, x.(invalid := true)); GoLock(Write(s, o, x.(invalid := true)), p, Removing(o, RemFixPrev, r));
    case RemFixPrev => PrevLock(s, p, o, r);
    case RemFixNext => NextLock(s, p, o, r);
    case RemReset =>
      WriteLock(s, o, x.(next := NO_SEG, prev := NO_SEG));
      GoLock(Write(s, o, x.(next := NO_SEG, prev := NO_SEG)), p, Removing(o, RemCount, r));
    case RemCount => GoLock(s.(numShared := s.numShared - 1), p, Removing(o, RemBump, r));
    case RemBump => GoLock(s.(rev := NextRev(s.rev)), p, Removing(o, RemUnlock, r));
    case RemUnlock => GoLock(Release(s, p), p, AfterRemove(o, r));
  }

  lemma PrevLock(s: State, p: Proc, o: Obj, r: RemoveCaller)
    requires TypeOk(s) && p in s.procs && o in s.meta
    ensures FixPrevStep(s, p, o, r).owner == s.owner && FixPrevStep(s, p, o, r).level == s.level
  {
    hide TypeOk, Goto, Write, Without;
    var x, table, u := s.meta[o], s.procs[p].table, s.(fchain := Without(s.fchain, o));
    if x.num == s.first {
      GoLock(s.(first := x.next, fchain := Without(s.fchain, o)), p, Removing(o, RemFixNext, r));
    } else if x.prev in table {
      NextTyped(s, p, x.prev);
      WriteLock(u, table[x.prev], s.meta[table[x.prev]].(next := x.next));
      GoLock(Write(u, table[x.prev], s.meta[table[x.prev]].(next := x.next)), p, Removing(o, RemFixNext, r));
    } else {
      GoLock(s, p, Resolving(x.prev, ForPrev(o, r)));
    }
  }

  lemma NextLock(s: State, p: Proc, o: Obj, r: RemoveCaller)
    requires TypeOk(s) && p in s.procs && o in s.meta
    ensures FixNextStep(s, p, o, r).owner == s.owner && FixNextStep(s, p, o, r).level == s.level
  {
    hide TypeOk, Goto, Write, Without;
    var x, table, u := s.meta[o], s.procs[p].table, s.(bchain := Without(s.bchain, o));
    if x.num == s.last {
      GoLock(s.(last := x.prev, bchain := Without(s.bchain, o)), p, Removing(o, RemReset, r));
    } else if x.next in table {
      NextTyped(s, p, x.next);
      WriteLock(u, table[x.next], s.meta[table[x.next]].(prev := x.prev));
      GoLock(Write(u, table[x.next], s.meta[table[x.next]].(prev := x.prev)), p, Removing(o, RemReset, r));
    } else {
      GoLock(s, p, Resolving(x.next, ForNext(o, r)));
    }
  }

  lemma IdleLocks(s: State, p: Proc, c: Choice)
    requires TypeOk(s) && p in s.procs && s.procs[p].pc == Idle
    ensures Turned(s, IdleStep(s, p, c), p, LockTurn(s, p, c))
  {
    hide Goto, Untrack;
    var table := s.procs[p].table;
    match c
    case Create(size) => GoLock(s, p, Reserving(NextNumber(s.last), size));
    case Lock =>
    case Unlock =>
    case OpenFirst => GoLock(s, p, Resolving(s.first, ForWalk));
    case OpenLast => GoLock(s, p, Resolving(s.last, ForWalk));
    case OpenNext(n) =>
      if n in table {
        GoLock(s, p, Resolving(s.meta[table[n]].next, ForWalk));
      }
    case RemoveShared(n) =>
      if n in table {
        GoLock(s, p, Removing(table[n], RemPeek, Explicit));
      }
    case Detach(n) =>
      if n in table {
        TrackLock(s, p, n, table[n], Detaching(table[n]));
      }
  }

  lemma OtherLocks(s: State, p: Proc, c: Choice)
    requires TypeOk(s) && p in s.procs
    requires var pc := s.procs[p].pc; !pc.Idle? && !pc.Adding? && !pc.Removing?
    ensures Step(s, p, c).owner == s.owner && Step(s, p, c).level == s.level
  {
    hide TypeOk, Goto, Write, Track;
    PcTyped(s, p);
    match s.procs[p].pc
    case Fault =>
    case Reserving(k, size) => MakeLock(s, p, s.procs[p].pc);
    case Choosing(o, k, size) => MakeLock(s, p, s.procs[p].pc);
    case Building(o, b) => BuildLock(s, p, o, b);
    case Resolving(n, v) => if n in s.names { GoLock(s, p, Opening(s.names[n], OpenCount, v)); } else { GoLock(s, p, Fault); }
    case Opening(q, e, v) => OpenLock(s, p, q, e, v);
    case Detaching(o) => EndLock(s, p, s.procs[p].pc);
    case Swapping(o, seen, flagging) => EndLock(s, p, s.procs[p].pc);
    case Finishing(o, f) => EndLock(s, p, s.procs[p].pc);
  }

  lemma MakeLock(s: State, p: Proc, pc: Pc)
    requires p in s.procs
    ensures pc.Reserving? ==> var t := ReserveStep(s, p, pc.k, pc.size); t.owner == s.owner && t.level == s.level
    ensures pc.Choosing? ==> var t := ChooseStep(s, p, pc.o, pc.k, pc.size); t.owner == s.owner && t.level == s.level
  {}

  lemma BuildLock(s: State, p: Proc, o: Obj, b: BuildStage)
    requires p in s.procs && o in s.meta
    ensures BuildStep(s, p, o, b).owner == s.owner && BuildStep(s, p, o, b).level == s.level
  {}

  lemma OpenLock(s: State, p: Proc, q: Obj, e: OpenStage, w: OpenCaller)
    requires p in s.procs && q in s.meta
    ensures OpenStep(s, p, q, e, w).owner == s.owner && OpenStep(s, p, q, e, w).level == s.level
  {}

  lemma EndLock(s: State, p: Proc, pc: Pc)
    requires p in s.procs
    ensures pc.Detaching? && pc.o in s.meta ==> var t := DetachStep(s, p, pc.o); t.owner == s.owner && t.level == s.level
    ensures pc.Swapping? && pc.o in s.meta ==> var t := SwapStep(s, p, pc.o, pc.seen, pc.flagging); t.owner == s.owner && t.level == s.level
    ensures pc.Finishing? && pc.o in s.meta ==> var t := FinishStep(s, p, pc.o, pc.f); t.owner == s.owner && t.level == s.level
  {}

  lemma StepLocks(s: State, p: Proc, c: Choice)
    requires TypeOk(s) && p in s.procs
    ensures Turned(s, Step(s, p, c), p, LockTurn(s, p, c))
  {
    hide TypeOk, Turned, AddStep, RemStep, IdleStep;
    PcTyped(s, p);
    var pc := s.procs[p].pc;
    if pc.Adding? {
      AddLocks(s, p, pc.o, pc.a);
    } else if pc.Removing? {
      RemLocks(s, p, pc.o, pc.m, pc.r);
    } else if pc.Idle? {
      IdleLocks(s, p, c);
    } else {
      OtherLocks(s, p, c);
      LeftAlone(s, Step(s, p, c), p);
    }
  }

  lemma LeftAlone(s: State, t: State, p: Proc)
    requires t.owner == s.owner && t.level == s.level
    ensures Turned(s, t, p, Leaves)
  {}

  // ----- entering and leaving the sections -----

  // Whether a step of an append or a removal takes the lock, gives it back, or is the
  // refusal that keeps it.
  function SectionTurn(s: State, p: Proc): int
    requires p in s.procs
  {
    match s.procs[p].pc
    case Adding(_, a) =>
      if a == AddLock && CanLock(s, p) then 1 else if a == AddUnlock || (a == AddCheck && s.numShared >= s.maxSegs) then -1 else 0
    case Removing(_, m, _) => if m == RemLock && CanLock(s, p) then 1 else if m == RemUnlock then -1 else 0
    case _ => 0
  }

  lemma AddSections(s: State, p: Proc, o: Obj, a: AddStage)
    requires TypeOk(s) && p in s.procs && s.procs[p].pc == Adding(o, a) && o in s.meta
    ensures p in AddStep(s, p, o, a).procs && Sections(AddStep(s, p, o, a).procs[p].pc) == Sections(s.procs[p].pc) + SectionTurn(s, p)
  {
    hide TypeOk, AddStep;
    AddTable(s, p, o, a);
    if a == AddLock {
      AddLockGoes(s, p, o);
    }
  }

  lemma AddLockGoes(s: State, p: Proc, o: Obj)
    requires TypeOk(s) && p in s.procs && o in s.meta && s.procs[p].pc == Adding(o, AddLock)
    ensures
      var t := AddStep(s, p, o, AddLock);
      p in t.procs && t.procs[p].pc == if CanLock(s, p) then Adding(o, AddCheck) else Adding(o, AddLock)
  {
    hide TypeOk;
  }

  lemma RemSections(s: State, p: Proc, o: Obj, m: RemStage, r: RemoveCaller)
    requires TypeOk(s) && p in s.procs && s.procs[p].pc == Removing(o, m, r) && o in s.meta
    ensures p in RemStep(s, p, o, m, r).procs && Sections(RemStep(s, p, o, m, r).procs[p].pc) == Sections(s.procs[p].pc) + SectionTurn(s, p)
  {
    hide TypeOk, RemStep;
    RemTable(s, p, o, m, r);
    if m == RemLock {
      RemLockGoes(s, p, o, r);
    }
  }

  lemma RemLockGoes(s: State, p: Proc, o: Obj, r: RemoveCaller)
    requires TypeOk(s) && p in s.procs && o in s.meta && s.procs[p].pc == Removing(o, RemLock, r)
    ensures
      var t := RemStep(s, p, o, RemLock, r);
      p in t.procs && t.procs[p].pc == if CanLock(s, p) then Removing(o, RemCheck, r) else Removing(o, RemLock, r)
  {
    hide TypeOk;
  }

  lemma IdleSections(s: State, p: Proc, c: Choice)
    requires TypeOk(s) && p in s.procs && s.procs[p].pc == Idle
    ensures p in IdleStep(s, p, c).procs && Sections(IdleStep(s, p, c).procs[p].pc) == 0
  {
    hide TypeOk, Goto, FindOrOpen, Untrack, Acquire, Release;
    HeldApart(s, p);
    var table := s.procs[p].table;
    match c
    case Create(size) => Going(s, p, Reserving(NextNumber(s.last), size));
    case Lock =>
    case Unlock =>
    case OpenFirst => Finding(s, p, s.first);
    case OpenLast => Finding(s, p, s.last);
    case OpenNext(n) =>
      if n in table {
        NextTyped(s, p, n);
        Finding(s, p, s.meta[table[n]].next);
      }
    case RemoveShared(n) =>
      if n in table {
        Going(s, p, Removing(table[n], RemPeek, Explicit));
      }
    case Detach(n) =>
      if n in table {
        Untracking(s, p, n, Detaching(table[n]));
      }
  }

  lemma OtherSections(s: State, p: Proc, c: Choice)
    requires Inv(s) && TypeOk(s) && p in s.procs
    requires var pc := s.procs[p].pc; !pc.Idle? && !pc.Adding? && !pc.Removing?
    ensures p in Step(s, p, c).procs && Sections(Step(s, p, c).procs[p].pc) == Sections(s.procs[p].pc)
  {
    hide Inv, TypeOk, Step;
    if s.procs[p].pc.Resolving? {
      NamedThere(s, p);
    }
    NotFault(s, p);
    OtherTable(s, p, c);
    if s.procs[p].pc.Opening? {
      NeverWaits(s, p);
    } else if s.procs[p].pc.Swapping? || s.procs[p].pc.Detaching? || s.procs[p].pc.Finishing? {
      LeavingSections(s, p, c);
    } else if s.procs[p].pc.Choosing? || s.procs[p].pc.Reserving? {
      MakingSections(s, p, c);
    }
  }

  lemma NamedThere(s: State, p: Proc)
    requires Inv(s) && p in s.procs && s.procs[p].pc.Resolving?
    ensures s.procs[p].pc.n in s.names
  {
    hide Names, Counts, Places, Tables, Held, LedgerOk, ListOk;
    GetProc(s, p);
  }

  lemma NeverWaits(s: State, p: Proc)
    requires Inv(s) && p in s.procs && s.procs[p].pc.Opening?
    ensures s.procs[p].pc.e != OpenWait
  {
    hide Names, Counts, Places, Tables, Held, LedgerOk, ListOk;
    GetProc(s, p);
  }

  lemma LeavingSections(s: State, p: Proc, c: Choice)
    requires TypeOk(s) && p in s.procs && (s.procs[p].pc.Swapping? || s.procs[p].pc.Detaching? || s.procs[p].pc.Finishing?)
    ensures p in Step(s, p, c).procs && Sections(Step(s, p, c).procs[p].pc) == 0
  {
    hide TypeOk, Goto, Write;
    PcTyped(s, p);
    match s.procs[p].pc
    case Detaching(o) => DetachGoes(s, p, o);
    case Swapping(o, seen, flagging) => SwapGoes(s, p, o, seen, flagging);
    case Finishing(o, f) => FinishGoes(s, p, o, f);
  }

  lemma DetachGoes(s: State, p: Proc, o: Obj)
    requires p in s.procs && o in s.meta
    ensures var t := DetachStep(s, p, o); p in t.procs && (t.procs[p].pc.Swapping? || (t.procs[p].pc.Removing? && t.procs[p].pc.m == RemPeek))
  {}

  lemma SwapGoes(s: State, p: Proc, o: Obj, seen: Counter, flagging: bool)
    requires p in s.procs && o in s.meta
    ensures var t := SwapStep(s, p, o, seen, flagging); p in t.procs && (t.procs[p].pc.Detaching? || t.procs[p].pc.Finishing? || t.procs[p].pc.Idle?)
  {}

  lemma FinishGoes(s: State, p: Proc, o: Obj, f: FinishStage)
    requires p in s.procs && o in s.meta
    ensures var t := FinishStep(s, p, o, f); p in t.procs && (t.procs[p].pc.Finishing? || t.procs[p].pc.Idle? || t.procs[p].pc.Fault?)
  {}

  lemma MakingSections(s: State, p: Proc, c: Choice)
    requires TypeOk(s) && p in s.procs && (s.procs[p].pc.Choosing? || s.procs[p].pc.Reserving?)
    ensures p in Step(s, p, c).procs && Sections(Step(s, p, c).procs[p].pc) == 0
  {}

  lemma StepSections(s: State, p: Proc, c: Choice)
    requires Inv(s) && TypeOk(s) && p in s.procs
    ensures p in Step(s, p, c).procs && Sections(Step(s, p, c).procs[p].pc) == Sections(s.procs[p].pc) + SectionTurn(s, p)
  {
    hide Inv, TypeOk, AddStep, RemStep, IdleStep;
    PcTyped(s, p);
    var pc := s.procs[p].pc;
    if pc.Adding? {
      AddSections(s, p, pc.o, pc.a);
    } else if pc.Removing? {
      RemSections(s, p, pc.o, pc.m, pc.r);
    } else if pc.Idle? {
      IdleSections(s, p, c);
    } else {
      OtherSections(s, p, c);
    }
  }

  // ----- every step matches -----

  lemma LocksKeep(s: State, p: Proc, c: Choice, own: map<Proc, nat>)
    requires Inv(s) && TypeOk(s) && p in s.procs && LocksOk(s, own)
    ensures p in own && LocksOk(Step(s, p, c), own[p := OwnAfter(s, p, c, own[p])])
  {
    hide Inv, TypeOk, Step, Sections, Turned, OwnAfter, Moved, LockTurn, SectionTurn;
    var t := Step(s, p, c);
    StepLocks(s, p, c);
    StepSections(s, p, c);
    StepMoves(s, p, c);
    OneMoves(s, t, p);
    LockKnown(s);
    MatchSelf(s, t, p, c, own[p]);
    var now := own[p := OwnAfter(s, p, c, own[p])];
    forall q | q in t.procs && q in now
      ensures if t.owner == Some(q) then t.level == now[q] + Sections(t.procs[q].pc) else now[q] == 0 && Sections(t.procs[q].pc) == 0
    {
      if q != p {
        MatchOther(s, t, p, c, q);
      }
    }
  }

  lemma OneMoves(s: State, t: State, p: Proc)
    requires Moved(s, t, p)
    ensures t.procs.Keys == s.procs.Keys && forall q :: q in s.procs && q != p ==> t.procs[q] == s.procs[q]
  {
    hide WindowMoves;
  }

  lemma LockKnown(s: State)
    requires Inv(s)
    ensures LockOk(s)
  {}

  // What the process that steps has, before and after.
  lemma MatchSelf(s: State, t: State, p: Proc, c: Choice, own: nat)
    requires p in s.procs && p in t.procs && LockOk(s) && Turned(s, t, p, LockTurn(s, p, c))
    requires Sections(t.procs[p].pc) == Sections(s.procs[p].pc) + SectionTurn(s, p)
    requires if s.owner == Some(p) then s.level == own + Sections(s.procs[p].pc) else own == 0 && Sections(s.procs[p].pc) == 0
    ensures
      var now := OwnAfter(s, p, c, own);
      if t.owner == Some(p) then t.level == now + Sections(t.procs[p].pc) else now == 0 && Sections(t.procs[p].pc) == 0
  {}

  // Another process has what it had.
  lemma MatchOther(s: State, t: State, p: Proc, c: Choice, q: Proc)
    requires p in s.procs && q != p && Turned(s, t, p, LockTurn(s, p, c))
    ensures t.owner == Some(q) <==> s.owner == Some(q)
    ensures s.owner == Some(q) ==> t.level == s.level
  {}

  // ----- over every run -----

  ghost function OwnRun(s: State, sched: seq<(Proc, Choice)>, own: map<Proc, nat>): map<Proc, nat> {
    if sched == [] then own
    else
      var k := |sched| - 1;
      var before := OwnRun(s, sched[..k], own);
      var u, p := Run(s, sched[..k]), sched[k].0;
      if p in u.procs && p in before then before[p := OwnAfter(u, p, sched[k].1, before[p])] else before
  }

  function NoLocks(procs: set<Proc>): map<Proc, nat> {
    map p | p in procs :: 0
  }

  lemma {:induction false} LocksMatch(s0: State, sched: seq<(Proc, Choice)>)
    requires Init(s0)
    ensures LocksOk(Run(s0, sched), OwnRun(s0, sched, NoLocks(s0.procs.Keys)))
  {
    hide Inv, TypeOk, Accounted, Step, LocksOk, OwnAfter, Init;
    if sched == [] {
      FirstLocks(s0);
    } else {
      var k := |sched| - 1;
      var u, p := Run(s0, sched[..k]), sched[k].0;
      LocksMatch(s0, sched[..k]);
      RunSafe(s0, sched[..k]);
      if p in u.procs {
        LocksKeep(u, p, sched[k].1, OwnRun(s0, sched[..k], NoLocks(s0.procs.Keys)));
      }
      SameOwners(u, OwnRun(s0, sched[..k], NoLocks(s0.procs.Keys)));
    }
  }

  lemma SameOwners(s: State, own: map<Proc, nat>)
    requires LocksOk(s, own)
    ensures own.Keys == s.procs.Keys
  {}

  lemma FirstLocks(s: State)
    requires Init(s)
    ensures LocksOk(s, NoLocks(s.procs.Keys))
  {}

  // When no process has a lock of its own left, the lock is held only inside an append
  // or a removal: with every process between operations it is free.
  lemma LockFree(s0: State, sched: seq<(Proc, Choice)>)
    requires Init(s0)
    requires
      var own := OwnRun(s0, sched, NoLocks(s0.procs.Keys));
      forall p :: p in own ==> own[p] == 0
    ensures
      var s := Run(s0, sched);
      && (s.owner.Some? ==> s.owner.value in s.procs && InSection(Base(s.procs[s.owner.value].pc)) && s.level == 1)
      && ((forall p :: p in s.procs ==> s.procs[p].pc == Idle) ==> s.owner == None && s.level == 0)
  {
    hide Names, Counts, Places, Procs, Tables, Held, LedgerOk, ListOk, TypeOk, Run, OwnRun, Init, Accounted;
    LocksMatch(s0, sched);
    RunSafe(s0, sched);
  }
}
