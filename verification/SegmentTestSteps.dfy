/** The tests, lock operations and number look-ups inside the operations. */
module SegmentTestSteps {
  import opened Counters
  import opened SegmentModel
  import opened SegmentInvariant
  import opened SegmentFrames
  import opened SegmentMoves
  import opened SegmentLists
  import opened SegmentMoveSteps

  lemma SubsetSize(a: set<Proc>, b: set<Proc>)
    requires a <= b
    ensures |a| <= |b|
  {
    if a != {} {
      var x :| x in a;
      SubsetSize(a - {x}, b - {x});
    }
  }

  // With fewer processes than counter values, the field never wraps.
  lemma CountBound(s: State, o: Obj)
    requires Inv(s) && o in s.meta
    ensures s.meta[o].ctr.count == |s.meta[o].trackers| <= |s.procs.Keys| < COUNT_WRAP
  {
    hide Names, Places, Procs, Tables, Held, LedgerOk, ListOk;
    SubsetSize(s.meta[o].trackers, s.procs.Keys);
  }

  // ----- creating -----

  lemma ReserveFailKeeps(s: State, p: Proc, k: int, size: nat)
    requires Inv(s) && p in s.procs && s.procs[p].pc == Reserving(k, size)
    ensures Inv(Goto(s, p, Idle))
  {
    hide Names, Counts, Places, Procs, Tables, Held, LedgerOk, ListOk;
    GotoKeeps(s, p, Idle);
  }

  lemma ChooseNextKeeps(s: State, p: Proc, o: Obj, k: int, size: nat)
    requires Inv(s) && p in s.procs && s.procs[p].pc == Choosing(o, k, size)
    ensures Inv(Goto(s, p, Choosing(o, NextNumber(k), size)))
  {
    hide Names, Counts, Places, Procs, Tables, Held, LedgerOk, ListOk;
    GetProc(s, p);
    GotoKeeps(s, p, Choosing(o, NextNumber(k), size));
  }

  // ----- appending -----

  lemma AddLockKeeps(s: State, p: Proc, o: Obj)
    requires Inv(s) && p in s.procs && s.procs[p].pc == Adding(o, AddLock) && CanLock(s, p)
    ensures Inv(Goto(Acquire(s, p), p, Adding(o, AddCheck)))
  {
    hide Names, Counts, Places, Procs, Tables, Held, LedgerOk, ListOk;
    GetProc(s, p);
    AcquireKeeps(s, p, Adding(o, AddCheck));
  }

  lemma AddAdmitKeeps(s: State, p: Proc, o: Obj)
    requires Inv(s) && p in s.procs && s.procs[p].pc == Adding(o, AddCheck)
    ensures Inv(Goto(s.(numShared := s.numShared + 1), p, Adding(o, AddLink)))
  {
    hide Names, Counts, Places, Procs, Tables, Held, LedgerOk, ListOk;
    var t := Goto(s.(numShared := s.numShared + 1), p, Adding(o, AddLink));
    GetProc(s, p);
    LengthSame(s);
    ProcSame(s, t, p, Adding(o, AddLink), s.procs[p].table);
    MoveKeeps(s, t, p);
  }

  lemma AddLookKeeps(s: State, p: Proc, o: Obj)
    requires Inv(s) && p in s.procs && s.procs[p].pc == Adding(o, AddLink)
    requires s.first != NO_SEG && s.last !in s.procs[p].table
    ensures Inv(Goto(s, p, Resolving(s.last, ForAdd(o))))
  {
    hide Names, Counts, Places, Procs, Tables, Held, LedgerOk;
    GetProc(s, p);
    assert s.fchain == s.bchain && s.fchain != [];
    OpenListedKeeps(s, p, s.bchain[|s.bchain| - 1], ForAdd(o));
  }

  lemma AddBumpKeeps(s: State, p: Proc, o: Obj)
    requires Inv(s) && p in s.procs && s.procs[p].pc == Adding(o, AddBump)
    ensures Inv(Goto(s.(rev := NextRev(s.rev)), p, Adding(o, AddUnlock)))
  {
    hide Names, Counts, Places, Procs, Tables, Held, LedgerOk, ListOk;
    var t := Goto(s.(rev := NextRev(s.rev)), p, Adding(o, AddUnlock));
    GetProc(s, p);
    LengthSame(s);
    ProcSame(s, t, p, Adding(o, AddUnlock), s.procs[p].table);
    MoveKeeps(s, t, p);
  }

  lemma AddUnlockKeeps(s: State, p: Proc, o: Obj)
    requires Inv(s) && p in s.procs && s.procs[p].pc == Adding(o, AddUnlock)
    ensures Inv(Goto(Release(s, p), p, Idle))
  {
    hide Names, Counts, Places, Procs, Tables, Held, LedgerOk, ListOk;
    ReleaseKeeps(s, p, Idle);
  }

  // ----- opening -----

  lemma ResolveKeeps(s: State, p: Proc, n: int, w: OpenCaller)
    requires Inv(s) && p in s.procs && s.procs[p].pc == Resolving(n, w)
    ensures Inv(ResolveStep(s, p, n, w))
  {
    hide Counts, Places, Procs, Tables, Held, LedgerOk, ListOk;
    GetProc(s, p);
    assert NameOk(s, n);
    GotoKeeps(s, p, Opening(s.names[n], OpenCount, w));
  }

  // A listed segment is not being unlinked, so the opener never has to wait.
  lemma OpenCheckKeeps(s: State, p: Proc, q: Obj, w: OpenCaller)
    requires Inv(s) && p in s.procs && s.procs[p].pc == Opening(q, OpenCheck, w) && q in s.meta
    ensures !s.meta[q].ctr.flag
    ensures Inv(Goto(s, p, Opening(q, OpenTrack, w)))
  {
    hide Names, Counts, Places, Procs, Tables, Held, LedgerOk, ListOk;
    GetProc(s, p);
    ListedNamed(s, q);
    GotoKeeps(s, p, Opening(q, OpenTrack, w));
  }

  // ----- removing -----

  lemma PeekKeeps(s: State, p: Proc, o: Obj, r: RemoveCaller)
    requires Inv(s) && p in s.procs && s.procs[p].pc == Removing(o, RemPeek, r) && o in s.meta
    ensures Inv(Goto(s, p, if s.meta[o].invalid then AfterRemove(o, r) else Removing(o, RemLock, r)))
  {
    hide Names, Counts, Places, Procs, Tables, Held, LedgerOk, ListOk;
    GetProc(s, p);
    GotoKeeps(s, p, if s.meta[o].invalid then AfterRemove(o, r) else Removing(o, RemLock, r));
  }

  lemma RemLockKeeps(s: State, p: Proc, o: Obj, r: RemoveCaller)
    requires Inv(s) && p in s.procs && s.procs[p].pc == Removing(o, RemLock, r) && CanLock(s, p)
    ensures Inv(Goto(Acquire(s, p), p, Removing(o, RemCheck, r)))
  {
    hide Names, Counts, Places, Procs, Tables, Held, LedgerOk, ListOk;
    GetProc(s, p);
    AcquireKeeps(s, p, Removing(o, RemCheck, r));
  }

  lemma RemCheckKeeps(s: State, p: Proc, o: Obj, r: RemoveCaller)
    requires Inv(s) && p in s.procs && s.procs[p].pc == Removing(o, RemCheck, r) && o in s.meta
    ensures Inv(Goto(s, p, Removing(o, if s.meta[o].invalid then RemUnlock else RemMark, r)))
  {
    hide Names, Counts, Places, Procs, Tables, Held, LedgerOk, ListOk;
    GetProc(s, p);
    GotoKeeps(s, p, Removing(o, if s.meta[o].invalid then RemUnlock else RemMark, r));
  }

  lemma PrevLookKeeps(s: State, p: Proc, o: Obj, r: RemoveCaller)
    requires Inv(s) && p in s.procs && s.procs[p].pc == Removing(o, RemFixPrev, r) && o in s.meta
    requires s.meta[o].num != s.first && s.meta[o].prev !in s.procs[p].table
    ensures Inv(Goto(s, p, Resolving(s.meta[o].prev, ForPrev(o, r))))
  {
    hide Names, Counts, Places, Procs, Tables, Held, LedgerOk;
    GetProc(s, p);
    assert s.fchain == s.bchain;
    var i :| 0 <= i < |s.bchain| && s.bchain[i] == o;
    assert i > 0;
    var j := i - 1;
    assert s.meta[s.bchain[j + 1]].prev == s.meta[s.bchain[j]].num;
    OpenListedKeeps(s, p, s.bchain[j], ForPrev(o, r));
  }

  lemma NextLookKeeps(s: State, p: Proc, o: Obj, r: RemoveCaller)
    requires Inv(s) && p in s.procs && s.procs[p].pc == Removing(o, RemFixNext, r) && o in s.meta
    requires s.meta[o].num != s.last && s.meta[o].next !in s.procs[p].table
    ensures Inv(Goto(s, p, Resolving(s.meta[o].next, ForNext(o, r))))
  {
    hide Names, Counts, Places, Procs, Tables, Held, LedgerOk;
    GetProc(s, p);
    var i :| 0 <= i < |s.bchain| && s.bchain[i] == o;
    assert s.bchain[i + 1] in s.bchain;
    WithoutMembers(s.bchain, o);
    OpenListedKeeps(s, p, s.bchain[i + 1], ForNext(o, r));
  }

  lemma UncountKeeps(s: State, p: Proc, o: Obj, r: RemoveCaller)
    requires Inv(s) && p in s.procs && s.procs[p].pc == Removing(o, RemCount, r)
    ensures Inv(Goto(s.(numShared := s.numShared - 1), p, Removing(o, RemBump, r)))
  {
    hide Names, Counts, Places, Procs, Tables, Held, LedgerOk, ListOk;
    var t := Goto(s.(numShared := s.numShared - 1), p, Removing(o, RemBump, r));
    GetProc(s, p);
    LengthSame(s);
    ProcSame(s, t, p, Removing(o, RemBump, r), s.procs[p].table);
    MoveKeeps(s, t, p);
  }

  lemma RemBumpKeeps(s: State, p: Proc, o: Obj, r: RemoveCaller)
    requires Inv(s) && p in s.procs && s.procs[p].pc == Removing(o, RemBump, r)
    ensures Inv(Goto(s.(rev := NextRev(s.rev)), p, Removing(o, RemUnlock, r)))
  {
    hide Names, Counts, Places, Procs, Tables, Held, LedgerOk, ListOk;
    var t := Goto(s.(rev := NextRev(s.rev)), p, Removing(o, RemUnlock, r));
    GetProc(s, p);
    LengthSame(s);
    ProcSame(s, t, p, Removing(o, RemUnlock, r), s.procs[p].table);
    MoveKeeps(s, t, p);
  }

  lemma RemUnlockKeeps(s: State, p: Proc, o: Obj, r: RemoveCaller)
    requires Inv(s) && p in s.procs && s.procs[p].pc == Removing(o, RemUnlock, r)
    ensures Inv(Goto(Release(s, p), p, AfterRemove(o, r)))
  {
    hide Names, Counts, Places, Procs, Tables, Held, LedgerOk, ListOk;
    GetProc(s, p);
    ReleaseKeeps(s, p, AfterRemove(o, r));
  }

  // ----- detaching -----

  lemma DetachKeeps(s: State, p: Proc, o: Obj)
    requires Inv(s) && p in s.procs && s.procs[p].pc == Detaching(o) && o in s.meta
    ensures Inv(DetachStep(s, p, o))
  {
    hide Names, Counts, Places, Procs, Tables, Held, LedgerOk, ListOk;
    GetProc(s, p);
    CountBound(s, o);
    var seen := s.meta[o].ctr;
    assert Down(seen).count == 0 <==> seen.count == 1;
    GotoKeeps(s, p, if !seen.flag && seen.count == 1 then Removing(o, RemPeek, FromDetach(seen)) else Swapping(o, seen, false));
  }

  lemma SwapFailKeeps(s: State, p: Proc, o: Obj, seen: Counter, flagging: bool)
    requires Inv(s) && p in s.procs && s.procs[p].pc == Swapping(o, seen, flagging)
    ensures Inv(Goto(s, p, Detaching(o)))
  {
    hide Names, Counts, Places, Procs, Tables, Held, LedgerOk, ListOk;
    GetProc(s, p);
    GotoKeeps(s, p, Detaching(o));
  }
}
