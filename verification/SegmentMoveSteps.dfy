/** The steps that only move the acting process on: reads, tests, lock
    operations and the choice of what to do next. */
module SegmentMoveSteps {
  import opened Options
  import opened SegmentModel
  import opened SegmentInvariant
  import opened SegmentFrames
  import opened SegmentMoves
  import opened SegmentLists

  lemma FreeWhen(s: State, p: Proc)
    requires Procs(s) && CanLock(s, p)
    ensures OthersFree(s, p)
  {
    forall q | q in s.procs && q != p ensures !Critical(s.procs[q].pc) {
      GetProc(s, q);
    }
  }

  // Going to `pc` without touching the lock.
  lemma GotoKeeps(s: State, p: Proc, pc: Pc)
    requires Inv(s) && p in s.procs
    requires ProcOk(s, p, pc, s.procs[p].table)
    requires Holds(pc) == Holds(s.procs[p].pc)
    requires !s.procs[p].pc.Building? && !pc.Building?
    requires s.owner == Some(p) ==> SameRole(Base(s.procs[p].pc), Base(pc)) && Ahead(Base(pc)) == Ahead(Base(s.procs[p].pc))
    ensures Inv(Goto(s, p, pc))
  {
    hide Names, Counts, Places, Procs, Tables, Held, LedgerOk;
    var t := Goto(s, p, pc);
    assert SameShared(s, t);
    ProcSame(s, t, p, pc, s.procs[p].table);
    MoveKeeps(s, t, p);
  }

  lemma ProcSame(s: State, t: State, p: Proc, pc: Pc, table: map<int, Obj>)
    requires ProcOk(s, p, pc, table) && SameShared(s, t) && t.owner == s.owner
    ensures ProcOk(t, p, pc, table)
  {}

  // Taking the lock and going to `pc`.
  lemma AcquireKeeps(s: State, p: Proc, pc: Pc)
    requires Inv(s) && p in s.procs && CanLock(s, p)
    requires ProcOk(Acquire(s, p), p, pc, s.procs[p].table)
    requires Holds(pc) == Holds(s.procs[p].pc)
    requires !s.procs[p].pc.Building? && !pc.Building?
    requires Focus(Base(s.procs[p].pc), {}) && Focus(Base(pc), {}) && Ahead(Base(pc)) == 0 && Ahead(Base(s.procs[p].pc)) == 0
    ensures Inv(Goto(Acquire(s, p), p, pc))
  {
    hide Names, Counts, Places, Procs, Tables, Held, LedgerOk;
    var t := Goto(Acquire(s, p), p, pc);
    assert SameShared(s, t);
    FreeWhen(s, p);
    ProcSame(Acquire(s, p), t, p, pc, s.procs[p].table);
    MoveKeeps(s, t, p);
  }

  // Giving one level of the lock back and going to `pc`.
  lemma ReleaseKeeps(s: State, p: Proc, pc: Pc)
    requires Inv(s) && p in s.procs
    requires ProcOk(s, p, pc, s.procs[p].table) && !Critical(pc)
    requires Holds(pc) == Holds(s.procs[p].pc)
    requires !s.procs[p].pc.Building? && !pc.Building?
    requires Focus(Base(s.procs[p].pc), {}) && Focus(Base(pc), {}) && Ahead(Base(pc)) == 0 && Ahead(Base(s.procs[p].pc)) == 0
    ensures Inv(Goto(Release(s, p), p, pc))
  {
    if s.owner == Some(p) {
      ReleaseHeldKeeps(s, p, pc);
    } else {
      GotoKeeps(s, p, pc);
    }
  }

  lemma ReleaseHeldKeeps(s: State, p: Proc, pc: Pc)
    requires Inv(s) && p in s.procs && s.owner == Some(p)
    requires ProcOk(s, p, pc, s.procs[p].table) && !Critical(pc)
    requires Holds(pc) == Holds(s.procs[p].pc)
    requires !s.procs[p].pc.Building? && !pc.Building?
    requires Focus(Base(s.procs[p].pc), {}) && Focus(Base(pc), {}) && Ahead(Base(pc)) == 0 && Ahead(Base(s.procs[p].pc)) == 0
    ensures Inv(Goto(Release(s, p), p, pc))
  {
    hide Names, Counts, Places, Procs, Tables, Held, LedgerOk, ListOk, ProcOk, Holds, Focus, Ahead, Critical;
    var t := Goto(Release(s, p), p, pc);
    assert t.procs.Keys == s.procs.Keys;
    LengthSame(s);
    ReleaseMove(s, t, p);
  }

  lemma ReleaseMove(s: State, t: State, p: Proc)
    requires Inv(s) && SameShared(s, t) && Moved(s, t, p) && LockOk(t) && s.owner == Some(p) && (t.owner == None || t.owner == s.owner)
    requires ProcOk(s, p, t.procs[p].pc, t.procs[p].table) && !Critical(t.procs[p].pc)
    requires Focus(Base(s.procs[p].pc), {}) && Focus(Base(t.procs[p].pc), {})
    requires Ahead(Base(s.procs[p].pc)) == 0 && Ahead(Base(t.procs[p].pc)) == 0 && t.numShared == |t.bchain|
    ensures Inv(t)
  {
    hide Names, Counts, Places, Procs, Tables, Held, LedgerOk, ListOk, ProcOk, Holds;
    HolderFree(s, p);
    ProcFreed(s, t, p, t.procs[p].pc, t.procs[p].table);
    MoveKeeps(s, t, p);
  }

  lemma LengthSame(s: State)
    requires ListOk(s)
    ensures s.numShared == |s.bchain| + Ahead(Holder(s.owner, s.procs))
  {}

  lemma ProcFreed(s: State, t: State, p: Proc, pc: Pc, table: map<int, Obj>)
    requires ProcOk(s, p, pc, table) && SameShared(s, t) && !Critical(pc)
    ensures ProcOk(t, p, pc, table)
  {}

  // ----- opening by number -----

  // A number read from the list is the number of a listed segment, so a name
  // exists for it; if the process does not track it yet, it may be opened.
  lemma OpenListedKeeps(s: State, p: Proc, o: Obj, w: OpenCaller)
    requires Inv(s) && p in s.procs && s.owner == Some(p)
    requires o in s.fchain && o in s.bchain && o in s.meta && s.meta[o].num !in s.procs[p].table
    requires Base(s.procs[p].pc) == s.procs[p].pc == Resume(w) && o !in BaseObjs(Resume(w))
    ensures Inv(Goto(s, p, Resolving(s.meta[o].num, w)))
  {
    hide Names, Counts, Places, Procs, Tables, Held, LedgerOk, ListOk;
    GetProc(s, p);
    ListedNamed(s, o);
    assert !s.procs[p].pc.Building?;
    GotoKeeps(s, p, Resolving(s.meta[o].num, w));
  }

  // ----- the steps -----

  lemma IdleKeeps(s: State, p: Proc, c: Choice)
    requires Inv(s) && TypeOk(s) && p in s.procs && s.procs[p].pc == Idle && !c.Detach?
    ensures Inv(IdleStep(s, p, c))
  {
    hide Names, Counts, Places, Procs, Tables, Held, LedgerOk, ListOk, TypeOk;
    match c
    case Create(size) => IdleCreate(s, p, size);
    case Lock => if CanLock(s, p) { IdleLock(s, p); }
    case Unlock => IdleUnlock(s, p);
    case OpenFirst => if s.owner == Some(p) && s.first != NO_SEG { IdleOpen(s, p, s.first, true); }
    case OpenLast => if s.owner == Some(p) && s.last != NO_SEG { IdleOpen(s, p, s.last, false); }
    case OpenNext(n) => if s.owner == Some(p) && n in s.procs[p].table { IdleNext(s, p, n); }
    case RemoveShared(n) => if n in s.procs[p].table { IdleRemove(s, p, n); }
  }

  lemma LastInRange(s: State)
    requires Inv(s)
    ensures s.last == NO_SEG || 0 <= s.last <= SEG_MAX
  {
    hide Counts, Places, Procs, Tables, Held, LedgerOk;
    if s.bchain != [] {
      var o := s.bchain[|s.bchain| - 1];
      ListedNamed(s, o);
      assert NameOk(s, s.meta[o].num);
    }
  }

  lemma IdleCreate(s: State, p: Proc, size: nat)
    requires Inv(s) && p in s.procs && s.procs[p].pc == Idle
    ensures Inv(Goto(s, p, Reserving(NextNumber(s.last), size)))
  {
    hide Names, Counts, Places, Procs, Tables, Held, LedgerOk, ListOk;
    LastInRange(s);
    GotoKeeps(s, p, Reserving(NextNumber(s.last), size));
  }

  lemma IdleLock(s: State, p: Proc)
    requires Inv(s) && p in s.procs && s.procs[p].pc == Idle && CanLock(s, p)
    ensures Inv(Acquire(s, p))
  {
    hide Names, Counts, Places, Procs, Tables, Held, LedgerOk, ListOk;
    AcquireKeeps(s, p, Idle);
    assert Goto(Acquire(s, p), p, Idle) == Acquire(s, p);
  }

  lemma IdleUnlock(s: State, p: Proc)
    requires Inv(s) && p in s.procs && s.procs[p].pc == Idle
    ensures Inv(Release(s, p))
  {
    hide Names, Counts, Places, Procs, Tables, Held, LedgerOk, ListOk;
    ReleaseKeeps(s, p, Idle);
    assert Release(s, p).procs == s.procs;
    assert Goto(Release(s, p), p, Idle) == Release(s, p);
  }

  // With the lock held and nothing under way the two readings agree, and the
  // ends of the list are listed.
  lemma IdleOpen(s: State, p: Proc, n: int, forwards: bool)
    requires Inv(s) && p in s.procs && s.procs[p].pc == Idle && s.owner == Some(p) && n != NO_SEG
    requires n == (if forwards then s.first else s.last)
    ensures Inv(FindOrOpen(s, p, n, ForWalk))
  {
    hide Names, Counts, Places, Procs, Tables, Held, LedgerOk;
    if n !in s.procs[p].table {
      assert s.fchain == s.bchain && s.fchain != [];
      OpenListedKeeps(s, p, if forwards then s.fchain[0] else s.bchain[|s.bchain| - 1], ForWalk);
    }
  }

  lemma IdleNext(s: State, p: Proc, n: int)
    requires Inv(s) && TypeOk(s) && p in s.procs && s.procs[p].pc == Idle && s.owner == Some(p) && n in s.procs[p].table
    ensures s.meta[s.procs[p].table[n]].next != NO_SEG ==> Inv(FindOrOpen(s, p, s.meta[s.procs[p].table[n]].next, ForWalk))
  {
    hide Names, Counts, Places, Procs, Tables, Held, LedgerOk, TypeOk;
    var o := s.procs[p].table[n];
    GetEntry(s, p, n);
    if s.meta[o].next != NO_SEG {
      TrackedRaw(s, p, n);
      GetSegment(s, o);
      assert s.fchain == s.bchain;
      var i :| 0 <= i < |s.fchain| && s.fchain[i] == o;
      if s.meta[o].next !in s.procs[p].table {
        assert i + 1 < |s.fchain|;
        OpenListedKeeps(s, p, s.fchain[i + 1], ForWalk);
      }
    }
  }

  // A segment that some other process is still building is tracked by none.
  lemma TrackedRaw(s: State, p: Proc, n: int)
    requires Inv(s) && p in s.procs && n in s.procs[p].table && !s.procs[p].pc.Building?
    ensures !RawBy(s.procs, s.creator, s.procs[p].table[n])
  {
    hide Names, Counts, Places, Tables, Held, LedgerOk, ListOk;
    var o := s.procs[p].table[n];
    GetEntry(s, p, n);
    if RawBy(s.procs, s.creator, o) {
      GetProc(s, s.creator[o]);
    }
  }

  lemma IdleRemove(s: State, p: Proc, n: int)
    requires Inv(s) && p in s.procs && s.procs[p].pc == Idle && n in s.procs[p].table
    ensures Inv(Goto(s, p, Removing(s.procs[p].table[n], RemPeek, Explicit)))
  {
    hide Names, Counts, Places, Procs, Tables, Held, LedgerOk, ListOk;
    GetEntry(s, p, n);
    GotoKeeps(s, p, Removing(s.procs[p].table[n], RemPeek, Explicit));
  }
}
