/** Steps that create a segment: reserving its size, claiming a number,
    initialising the metadata, entering the local table. */
module SegmentBuildSteps {
  import opened SegmentModel
  import opened SegmentInvariant
  import opened SegmentFrames
  import opened SegmentLists
  import opened SegmentTestSteps
  import opened Sums

  // ----- reserving -----

  ghost predicate Reserves(s: State, t: State, p: Proc, k: int, size: nat) {
    && p in s.procs && s.procs[p].pc == Reserving(k, size) && s.total + size <= s.maxSize
    && t == ReserveStep(s, p, k, size)
  }

  lemma ReserveKeeps(s: State, t: State, p: Proc, k: int, size: nat)
    requires Inv(s) && Reserves(s, t, p, k, size)
    ensures Inv(t)
  {
    hide Names, Counts, Places, Procs, Tables, Held, LedgerOk, ListOk, ProcOk;
    ReserveCounts(s, t, p, k, size);
    ReserveProcs(s, t, p, k, size);
    ReserveLedger(s, t, p, k, size);
    ReserveRest(s, t, p, k, size);
  }

  lemma ReserveCounts(s: State, t: State, p: Proc, k: int, size: nat)
    requires Reserves(s, t, p, k, size) && Counts(s) && LedgerOk(s) && Names(s) && LockOk(s)
    ensures Counts(t) && Names(t) && LockOk(t)
  {
    assert t.procs.Keys == s.procs.Keys;
    forall x | x in t.meta ensures CountOk(x, t.meta[x], t.names, t.live, t.procs.Keys) {
      assert CountOk(x, s.meta[x], s.names, s.live, s.procs.Keys);
    }
    forall n | n in t.names ensures NameOk(t, n) {
      assert NameOk(s, n);
    }
  }

  lemma ReserveOther(s: State, t: State, p: Proc, k: int, size: nat, q: Proc, x: Process)
    requires Reserves(s, t, p, k, size) && ProcOk(s, q, x.pc, x.table)
    requires s.nextObj !in s.live && s.nextObj !in s.creator
    ensures ProcOk(t, q, x.pc, x.table)
  {}

  lemma ReserveProcs(s: State, t: State, p: Proc, k: int, size: nat)
    requires Reserves(s, t, p, k, size) && Procs(s) && LedgerOk(s)
    ensures Procs(t)
  {
    hide ProcOk;
    forall q | q in t.procs ensures ProcOk(t, q, t.procs[q].pc, t.procs[q].table) {
      GetProc(s, q);
      if q != p {
        ReserveOther(s, t, p, k, size, q, s.procs[q]);
      } else {
        ReserveSelf(s, t, p, k, size);
      }
    }
  }

  lemma ReserveSelf(s: State, t: State, p: Proc, k: int, size: nat)
    requires Reserves(s, t, p, k, size) && ProcOk(s, p, s.procs[p].pc, s.procs[p].table) && s.nextObj !in s.meta
    ensures ProcOk(t, p, t.procs[p].pc, t.procs[p].table)
  {}

  lemma ReserveLedger(s: State, t: State, p: Proc, k: int, size: nat)
    requires Reserves(s, t, p, k, size) && LedgerOk(s)
    ensures LedgerOk(t)
  {
    SumPut(s.live, s.nextObj, size);
  }

  lemma ReserveRest(s: State, t: State, p: Proc, k: int, size: nat)
    requires Reserves(s, t, p, k, size) && Places(s) && Tables(s) && Held(s) && ListOk(s) && LedgerOk(s)
    ensures Places(t) && Tables(t) && Held(t) && ListOk(t)
  {
    hide Places, Tables, Held, ListOk;
    ReservePlaces(s, t, p, k, size);
    ReserveTables(s, t, p, k, size);
    ListSame(s, t);
  }

  lemma ReservePlaces(s: State, t: State, p: Proc, k: int, size: nat)
    requires Reserves(s, t, p, k, size) && Places(s) && LedgerOk(s)
    ensures Places(t)
  {
    forall x | x in t.meta ensures Place(t, x) {
      assert Place(s, x);
    }
  }

  lemma ReserveTables(s: State, t: State, p: Proc, k: int, size: nat)
    requires Reserves(s, t, p, k, size) && Tables(s) && Held(s)
    ensures Tables(t) && Held(t)
  {
    forall q, n | q in t.procs && n in t.procs[q].table ensures EntryOk(t.meta, q, n, t.procs[q].table[n]) {
      GetEntry(s, q, n);
    }
    forall q, x | q in t.procs && x in t.meta ensures HeldOk(x, t.meta[x], q, t.procs[q]) {
      GetHeld(s, q, x);
    }
  }

  // ----- claiming a number -----

  ghost predicate Claims(s: State, t: State, p: Proc, o: Obj, k: int, size: nat) {
    && p in s.procs && s.procs[p].pc == Choosing(o, k, size) && k !in s.names
    && t == ChooseStep(s, p, o, k, size)
  }

  lemma ClaimKeeps(s: State, t: State, p: Proc, o: Obj, k: int, size: nat)
    requires Inv(s) && Claims(s, t, p, o, k, size)
    ensures Inv(t)
  {
    hide Names, Counts, Places, Procs, Tables, Held, LedgerOk, ListOk, ProcOk, Place;
    GetProc(s, p);
    ClaimFacts(s, p, o, k, size);
    ClaimCounts(s, t, p, o, k, size);
    ClaimProcs(s, t, p, o, k, size);
    ClaimPlaces(s, t, p, o, k, size);
    ClaimTables(s, t, p, o, k, size);
    ClaimList(s, t, p, o, k, size);
    ClaimLedger(s, t, p, o, k, size);
  }

  lemma ClaimFacts(s: State, p: Proc, o: Obj, k: int, size: nat)
    requires p in s.procs && s.procs[p].pc == Choosing(o, k, size) && ProcOk(s, p, s.procs[p].pc, s.procs[p].table)
    ensures 0 <= k <= SEG_MAX && o !in s.meta && o in s.creator && s.creator[o] == p && o in s.live && s.live[o] == size
  {}

  lemma ClaimCounts(s: State, t: State, p: Proc, o: Obj, k: int, size: nat)
    requires Claims(s, t, p, o, k, size) && Counts(s) && Names(s) && LockOk(s)
    requires 0 <= k <= SEG_MAX && o !in s.meta && o in s.live && s.live[o] == size
    ensures Counts(t) && Names(t) && LockOk(t)
  {
    assert t.procs.Keys == s.procs.Keys;
    forall x | x in t.meta ensures CountOk(x, t.meta[x], t.names, t.live, t.procs.Keys) {
      if x != o {
        assert CountOk(x, s.meta[x], s.names, s.live, s.procs.Keys);
      }
    }
    forall n | n in t.names ensures NameOk(t, n) {
      if n != k {
        assert NameOk(s, n);
      }
    }
  }

  lemma ClaimOther(s: State, t: State, p: Proc, o: Obj, k: int, size: nat, q: Proc, x: Process)
    requires Claims(s, t, p, o, k, size) && q != p && ProcOk(s, q, x.pc, x.table)
    requires o !in s.meta && o in s.creator && s.creator[o] == p
    ensures ProcOk(t, q, x.pc, x.table)
  {}

  lemma ClaimProcs(s: State, t: State, p: Proc, o: Obj, k: int, size: nat)
    requires Claims(s, t, p, o, k, size) && Procs(s) && ListOk(s)
    requires o !in s.meta && o in s.creator && s.creator[o] == p
    ensures Procs(t)
  {
    hide ProcOk;
    forall q | q in t.procs ensures ProcOk(t, q, t.procs[q].pc, t.procs[q].table) {
      GetProc(s, q);
      if q != p {
        ClaimOther(s, t, p, o, k, size, q, s.procs[q]);
      } else {
        ClaimUnlisted(s, o);
        ClaimSelf(s, t, p, o, k, size);
      }
    }
  }

  lemma ClaimUnlisted(s: State, o: Obj)
    requires ListOk(s) && o !in s.meta
    ensures o !in s.fchain && o !in s.bchain
  {}

  lemma ClaimSelf(s: State, t: State, p: Proc, o: Obj, k: int, size: nat)
    requires Claims(s, t, p, o, k, size)
    requires o !in s.meta && o in s.creator && s.creator[o] == p && o !in s.fchain && o !in s.bchain
    ensures ProcOk(t, p, t.procs[p].pc, t.procs[p].table)
  {}

  lemma ClaimPlaces(s: State, t: State, p: Proc, o: Obj, k: int, size: nat)
    requires Claims(s, t, p, o, k, size) && Places(s) && ListOk(s)
    requires o !in s.meta && o in s.creator && s.creator[o] == p
    ensures Places(t)
  {
    ClaimUnlisted(s, o);
    forall x | x in t.meta ensures Place(t, x) {
      if x != o {
        assert Place(s, x);
      }
    }
  }

  lemma ClaimTables(s: State, t: State, p: Proc, o: Obj, k: int, size: nat)
    requires Claims(s, t, p, o, k, size) && Tables(s) && Held(s) && o !in s.meta
    ensures Tables(t) && Held(t)
  {
    forall q, n | q in t.procs && n in t.procs[q].table ensures EntryOk(t.meta, q, n, t.procs[q].table[n]) {
      GetEntry(s, q, n);
    }
    forall q, x | q in t.procs && x in t.meta ensures HeldOk(x, t.meta[x], q, t.procs[q]) {
      if x != o {
        GetHeld(s, q, x);
      }
    }
  }

  lemma ClaimList(s: State, t: State, p: Proc, o: Obj, k: int, size: nat)
    requires Claims(s, t, p, o, k, size) && ListOk(s) && o !in s.meta
    ensures ListOk(t)
  {
    hide ListOk;
    ListSame(s, t);
  }

  lemma ClaimLedger(s: State, t: State, p: Proc, o: Obj, k: int, size: nat)
    requires Claims(s, t, p, o, k, size) && LedgerOk(s) && o in s.live
    ensures LedgerOk(t)
  {}

  // ----- initialising the metadata -----

  // The creator rewrites a segment that is its own.
  ghost predicate Builds(s: State, t: State, p: Proc, o: Obj, b: BuildStage) {
    && p in s.procs && o in s.meta && s.procs[p].pc == Building(o, b) && t == BuildStep(s, p, o, b)
  }

  lemma BuildKeeps(s: State, t: State, p: Proc, o: Obj, b: BuildStage)
    requires Inv(s) && Builds(s, t, p, o, b)
    ensures Inv(t)
  {
    hide Names, Counts, Places, Procs, Tables, Held, LedgerOk, ListOk, CountOk, Place, ProcOk, HeldOk, EntryOk;
    GetProc(s, p);
    GetSegment(s, o);
    BuildSegment(s, t, p, o, b);
    BuildSelf(s, t, p, o, b);
    BuildOthers(s, t, p, o, b);
    BuildEntries(s, t, p, o, b);
    BuildHolds(s, t, p, o, b);
    BuildList(s, t, p, o, b);
    BuildFrame(s, t, p, o, b);
    FrameKeeps(s, t, p, {o});
  }

  lemma BuildFrame(s: State, t: State, p: Proc, o: Obj, b: BuildStage)
    requires Builds(s, t, p, o, b)
    ensures Framed(s, t, p, {o}) && OnlyCounts(s, t, p) && RolesWithin(s, t, p, {o}) && SameLists(s, t)
    ensures t.names == s.names && t.live == s.live && t.total == s.total && t.owner == s.owner && t.level == s.level
  {}

  lemma BuildSegment(s: State, t: State, p: Proc, o: Obj, b: BuildStage)
    requires Builds(s, t, p, o, b) && ProcOk(s, p, s.procs[p].pc, s.procs[p].table) && LockOk(s)
    requires CountOk(o, s.meta[o], s.names, s.live, s.procs.Keys) && Place(s, o)
    ensures CountOk(o, t.meta[o], t.names, t.live, t.procs.Keys) && Place(t, o)
  {
    assert t.procs.Keys == s.procs.Keys;
    if b == Zeroed {
      SubsetSize({p}, s.procs.Keys);
      assert {} + {p} == {p};
    }
  }

  lemma BuildSelf(s: State, t: State, p: Proc, o: Obj, b: BuildStage)
    requires Builds(s, t, p, o, b) && ProcOk(s, p, s.procs[p].pc, s.procs[p].table)
    ensures ProcOk(t, p, t.procs[p].pc, t.procs[p].table)
  {}

  lemma BuildOther(s: State, t: State, p: Proc, o: Obj, b: BuildStage, q: Proc, x: Process)
    requires Builds(s, t, p, o, b) && q != p && ProcOk(s, q, x.pc, x.table) && ProcOk(s, p, s.procs[p].pc, s.procs[p].table)
    ensures ProcOk(t, q, x.pc, x.table)
  {}

  lemma BuildOthers(s: State, t: State, p: Proc, o: Obj, b: BuildStage)
    requires Builds(s, t, p, o, b) && Procs(s)
    ensures forall q :: q in s.procs && q != p ==> ProcOk(t, q, s.procs[q].pc, s.procs[q].table)
  {
    hide ProcOk;
    GetProc(s, p);
    forall q | q in s.procs && q != p ensures ProcOk(t, q, s.procs[q].pc, s.procs[q].table) {
      GetProc(s, q);
      BuildOther(s, t, p, o, b, q, s.procs[q]);
    }
  }

  lemma BuildEntries(s: State, t: State, p: Proc, o: Obj, b: BuildStage)
    requires Builds(s, t, p, o, b) && Tables(s) && ProcOk(s, p, s.procs[p].pc, s.procs[p].table)
    ensures forall n :: n in t.procs[p].table ==> EntryOk(t.meta, p, n, t.procs[p].table[n])
  {
    forall n | n in t.procs[p].table ensures EntryOk(t.meta, p, n, t.procs[p].table[n]) {
      if n in s.procs[p].table {
        GetEntry(s, p, n);
      }
    }
  }

  // Entering the number in the table displaces nothing: any entry for it would
  // denote the segment that carries the name, which is this one.
  lemma BuildHolds(s: State, t: State, p: Proc, o: Obj, b: BuildStage)
    requires Inv(s) && Builds(s, t, p, o, b)
    ensures forall x :: x in s.meta && x in t.meta ==> HeldOk(x, t.meta[x], p, t.procs[p])
  {
    hide Names, Counts, Places, Procs, Tables, Held, LedgerOk, ListOk, LockOk, HeldOk;
    GetProc(s, p);
    GetSegment(s, o);
    forall x | x in s.meta && x in t.meta ensures HeldOk(x, t.meta[x], p, t.procs[p]) {
      GetHeld(s, p, x);
      if s.meta[x].num in s.procs[p].table {
        EntryCurrent(s, p, s.meta[x].num);
      }
      BuildHeld(s, t, p, o, b, x);
    }
  }

  lemma BuildHeld(s: State, t: State, p: Proc, o: Obj, b: BuildStage, x: Obj)
    requires Builds(s, t, p, o, b) && x in s.meta && HeldOk(x, s.meta[x], p, s.procs[p])
    requires NamedAs(s.names, s.meta[o].num, o)
    requires s.meta[x].num in s.procs[p].table ==> NamedAs(s.names, s.meta[x].num, s.procs[p].table[s.meta[x].num])
    ensures HeldOk(x, t.meta[x], p, t.procs[p])
  {}

  lemma BuildList(s: State, t: State, p: Proc, o: Obj, b: BuildStage)
    requires Builds(s, t, p, o, b) && ListOk(s) && ProcOk(s, p, s.procs[p].pc, s.procs[p].table)
    ensures ListOk(t)
  {
    hide ListOk;
    ListSame(s, t);
  }
}
