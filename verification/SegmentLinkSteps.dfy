/** Steps of the lock holder that rewrite the list: validity marks, links, the
    ends of the list. */
module SegmentLinkSteps {
  import opened Options
  import opened SegmentModel
  import opened SegmentInvariant
  import opened SegmentFrames
  import opened SegmentLists
  import opened SegmentChains

  // Only marks and links change; counts, names and tables stay.
  predicate SameCount(m: Meta, m': Meta) {
    && m'.num == m.num && m'.size == m.size && m'.ctr == m.ctr && m'.trackers == m.trackers
    && m'.flagger == m.flagger && m'.flips == m.flips && m'.unlinks == m.unlinks
  }

  ghost predicate Relinks(s: State, t: State, p: Proc, d: set<Obj>) {
    && p in s.procs && p in t.procs && s.owner == Some(p)
    && t.procs == s.procs[p := Process(t.procs[p].pc, s.procs[p].table)]
    && Holds(t.procs[p].pc) == Holds(s.procs[p].pc)
    && !s.procs[p].pc.Building? && !t.procs[p].pc.Building?
    && t.meta.Keys == s.meta.Keys
    && (forall o :: o in s.meta ==> SameCount(s.meta[o], t.meta[o]))
    && (forall o :: o in s.meta && o !in d ==> t.meta[o] == s.meta[o])
    && (forall o :: o in d ==> o in s.meta && p in s.meta[o].trackers && (s.meta[o].invalid && s.meta[o].trackers != {p} ==> t.meta[o].invalid))
    && ListsWithin(s, t, d)
    && t.names == s.names && t.live == s.live && t.total == s.total && t.maxSize == s.maxSize
    && t.creator == s.creator && t.nextObj == s.nextObj && t.owner == s.owner && t.level == s.level
  }

  lemma RelinkOther(s: State, t: State, p: Proc, d: set<Obj>, q: Proc, x: Process)
    requires Relinks(s, t, p, d) && q != p && ProcOk(s, q, x.pc, x.table) && !Critical(x.pc)
    ensures ProcOk(t, q, x.pc, x.table)
  {}

  lemma RelinkOthers(s: State, t: State, p: Proc, d: set<Obj>)
    requires Relinks(s, t, p, d) && Procs(s)
    ensures forall q :: q in s.procs && q != p ==> ProcOk(t, q, s.procs[q].pc, s.procs[q].table)
  {
    hide ProcOk;
    HolderFree(s, p);
    forall q | q in s.procs && q != p ensures ProcOk(t, q, s.procs[q].pc, s.procs[q].table) {
      GetProc(s, q);
      RelinkOther(s, t, p, d, q, s.procs[q]);
    }
  }

  lemma RelinkKeeps(s: State, t: State, p: Proc, d: set<Obj>)
    requires Inv(s) && Relinks(s, t, p, d)
    requires ProcOk(t, p, t.procs[p].pc, t.procs[p].table)
    requires forall o :: o in d && o in t.meta ==> Place(t, o)
    requires RolesWithin(s, t, p, d) && ListOk(t)
    ensures Inv(t)
  {
    hide Names, Counts, Places, Procs, Tables, Held, LedgerOk, ListOk, CountOk, Place, ProcOk, HeldOk, EntryOk;
    RelinkOthers(s, t, p, d);
    RelinkCounts(s, t, p, d);
    RelinkTables(s, t, p, d);
    HolderFree(s, p);
    FrameKeeps(s, t, p, d);
  }

  lemma RelinkCounts(s: State, t: State, p: Proc, d: set<Obj>)
    requires Relinks(s, t, p, d) && Counts(s)
    ensures forall o :: o in d && o in t.meta ==> CountOk(o, t.meta[o], t.names, t.live, t.procs.Keys)
  {
    assert t.procs.Keys == s.procs.Keys;
    forall o | o in d && o in t.meta ensures CountOk(o, t.meta[o], t.names, t.live, t.procs.Keys) {
      assert CountOk(o, s.meta[o], s.names, s.live, s.procs.Keys);
      assert SameCount(s.meta[o], t.meta[o]);
    }
  }

  lemma RelinkTables(s: State, t: State, p: Proc, d: set<Obj>)
    requires Relinks(s, t, p, d) && Tables(s) && Held(s)
    ensures forall n :: n in t.procs[p].table ==> EntryOk(t.meta, p, n, t.procs[p].table[n])
    ensures forall o :: o in s.meta && o in t.meta ==> HeldOk(o, t.meta[o], p, t.procs[p])
  {
    forall n | n in t.procs[p].table ensures EntryOk(t.meta, p, n, t.procs[p].table[n]) {
      GetEntry(s, p, n);
      assert SameCount(s.meta[s.procs[p].table[n]], t.meta[s.procs[p].table[n]]);
    }
    forall o | o in s.meta && o in t.meta ensures HeldOk(o, t.meta[o], p, t.procs[p]) {
      GetHeld(s, p, o);
      assert SameCount(s.meta[o], t.meta[o]);
    }
  }

  // ----- marks, and links that no reading of the list follows -----

  // Process `p` rewrites the mark and links of segment `o`, which it counts in.
  ghost predicate Marks(s: State, t: State, p: Proc, o: Obj, m: Meta) {
    && p in s.procs && p in t.procs && o in s.meta && s.owner == Some(p)
    && SameCount(s.meta[o], m) && t == Goto(Write(s, o, m), p, t.procs[p].pc)
    && (s.procs[p].pc.Adding? || s.procs[p].pc.Removing?) && Base(t.procs[p].pc) == t.procs[p].pc
    && Holds(t.procs[p].pc) == Holds(s.procs[p].pc) && !t.procs[p].pc.Building?
    && Focus(s.procs[p].pc, {o}) && Focus(t.procs[p].pc, {o})
    && Ahead(t.procs[p].pc) == Ahead(s.procs[p].pc)
    && (HalfAdded(t.procs[p].pc) <==> HalfAdded(s.procs[p].pc))
    && (HalfAdded(t.procs[p].pc) ==> t.procs[p].pc.o == s.procs[p].pc.o)
    && !HalfRemoved(t.procs[p].pc) && !HalfRemoved(s.procs[p].pc)
  }

  lemma MarkKeeps(s: State, t: State, p: Proc, o: Obj, m: Meta)
    requires Inv(s) && Marks(s, t, p, o, m)
    requires p in s.meta[o].trackers && (s.meta[o].invalid && s.meta[o].trackers != {p} ==> m.invalid)
    requires (o in s.fchain ==> m.next == s.meta[o].next) && (o in s.bchain ==> m.prev == s.meta[o].prev)
    requires ProcOk(t, p, t.procs[p].pc, t.procs[p].table) && Place(t, o)
    ensures Inv(t)
  {
    hide Names, Counts, Places, Procs, Tables, Held, LedgerOk, ListOk, CountOk, HeldOk, EntryOk, Place, ProcOk;
    MarkRelinks(s, t, p, o, m);
    MarkList(s, t, p, o, m);
    RelinkKeeps(s, t, p, {o});
  }

  lemma MarkRelinks(s: State, t: State, p: Proc, o: Obj, m: Meta)
    requires Marks(s, t, p, o, m)
    requires p in s.meta[o].trackers && (s.meta[o].invalid && s.meta[o].trackers != {p} ==> m.invalid)
    ensures Relinks(s, t, p, {o}) && RolesWithin(s, t, p, {o})
  {}

  lemma MarkList(s: State, t: State, p: Proc, o: Obj, m: Meta)
    requires ListOk(s) && Marks(s, t, p, o, m)
    requires (o in s.fchain ==> m.next == s.meta[o].next) && (o in s.bchain ==> m.prev == s.meta[o].prev)
    ensures ListOk(t)
  {
    MarkFrame(s, t, p, o, m);
    ListKeep(s, t, p, {o});
  }

  lemma MarkFrame(s: State, t: State, p: Proc, o: Obj, m: Meta)
    requires Marks(s, t, p, o, m)
    requires (o in s.fchain ==> m.next == s.meta[o].next) && (o in s.bchain ==> m.prev == s.meta[o].prev)
    ensures Framed(s, t, p, {o}) && SameLists(s, t) && SameLinks(s, t)
  {}

  // ----- appending -----

  lemma LinkFirstKeeps(s: State, p: Proc, o: Obj)
    requires Inv(s) && p in s.procs && s.procs[p].pc == Adding(o, AddLink) && o in s.meta && s.first == NO_SEG
    ensures Inv(Goto(s.(first := s.meta[o].num, fchain := s.fchain + [o]), p, Adding(o, AddPrev)))
  {
    hide Names, Counts, Places, Procs, Tables, Held, LedgerOk, ListOk, CountOk, HeldOk, EntryOk;
    var t := Goto(s.(first := s.meta[o].num, fchain := s.fchain + [o]), p, Adding(o, AddPrev));
    GetProc(s, p);
    EmptyList(s);
    GetSegment(s, o);
    LinkFirstList(s, t, p, o);
    RelinkKeeps(s, t, p, {o});
  }

  lemma EmptyList(s: State)
    requires Inv(s) && s.first == NO_SEG
    ensures s.fchain == []
  {
    hide Names, Counts, Places, Procs, Tables, Held, LedgerOk;
    if s.fchain != [] {
      ListedNamed(s, s.fchain[0]);
    }
  }

  lemma LinkFirstList(s: State, t: State, p: Proc, o: Obj)
    requires ListOk(s) && o in s.meta && p in s.procs && s.procs[p].pc == Adding(o, AddLink) && s.owner == Some(p)
    requires s.fchain == [] && s.meta[o].next == NO_SEG
    requires t == Goto(s.(first := s.meta[o].num, fchain := s.fchain + [o]), p, Adding(o, AddPrev))
    ensures ListOk(t)
  {}

  // The neighbour that is written is the last segment of the list.
  lemma LinkLastKeeps(s: State, p: Proc, o: Obj, z: Obj)
    requires Inv(s) && p in s.procs && s.procs[p].pc == Adding(o, AddLink) && o in s.meta && s.first != NO_SEG
    requires s.last in s.procs[p].table && s.procs[p].table[s.last] == z && z in s.meta
    ensures Inv(Goto(Write(s.(fchain := s.fchain + [o]), z, s.meta[z].(next := s.meta[o].num)), p, Adding(o, AddPrev)))
  {
    hide Names, Counts, Places, Procs, Tables, Held, LedgerOk, ListOk, CountOk, HeldOk, EntryOk, Place, ProcOk, Without, Relinks, RolesWithin;
    var t := Goto(Write(s.(fchain := s.fchain + [o]), z, s.meta[z].(next := s.meta[o].num)), p, Adding(o, AddPrev));
    GetProc(s, p);
    LastTracked(s, p, o, z);
    GetSegment(s, o);
    GetSegment(s, z);
    GetEntry(s, p, s.last);
    LinkLastSelf(s, t, p, o, z);
    LinkLastList(s, t, p, o, z);
    RelinkKeeps(s, t, p, {o, z});
  }

  lemma LinkLastSelf(s: State, t: State, p: Proc, o: Obj, z: Obj)
    requires p in s.procs && s.procs[p].pc == Adding(o, AddLink) && o in s.meta && z in s.meta
    requires t == Goto(Write(s.(fchain := s.fchain + [o]), z, s.meta[z].(next := s.meta[o].num)), p, Adding(o, AddPrev))
    requires ProcOk(s, p, s.procs[p].pc, s.procs[p].table) && Place(s, o) && Place(s, z) && EntryOk(s.meta, p, s.last, z)
    requires s.fchain == s.bchain && z in s.fchain && z != o
    ensures Relinks(s, t, p, {o, z}) && RolesWithin(s, t, p, {o, z})
    ensures ProcOk(t, p, t.procs[p].pc, t.procs[p].table) && Place(t, o) && Place(t, z)
    ensures o !in s.fchain && s.meta[o].next == NO_SEG && s.owner == Some(p)
  {}

  lemma LastTracked(s: State, p: Proc, o: Obj, z: Obj)
    requires Inv(s) && p in s.procs && s.procs[p].pc == Adding(o, AddLink) && o in s.meta && s.first != NO_SEG
    requires s.last in s.procs[p].table && s.procs[p].table[s.last] == z
    ensures s.fchain == s.bchain && s.fchain != [] && z == s.fchain[|s.fchain| - 1] && z in s.fchain && z != o
  {
    hide Names, Counts, Places, Procs, Tables, Held, LedgerOk;
    GetProc(s, p);
    EntryListed(s, p, s.bchain[|s.bchain| - 1]);
  }

  lemma LinkLastList(s: State, t: State, p: Proc, o: Obj, z: Obj)
    requires ListOk(s) && o in s.meta && z in s.meta && p in s.procs && s.procs[p].pc == Adding(o, AddLink) && s.owner == Some(p)
    requires s.fchain == s.bchain && s.fchain != [] && z == s.fchain[|s.fchain| - 1] && o !in s.fchain && s.meta[o].next == NO_SEG
    requires t == Goto(Write(s.(fchain := s.fchain + [o]), z, s.meta[z].(next := s.meta[o].num)), p, Adding(o, AddPrev))
    ensures ListOk(t)
  {
    AppendForward(s.first, t.first, s.meta, t.meta, s.fchain, o);
    BackwardFrame(s.last, s.meta, t.meta, s.bchain);
  }

  lemma AddPrevKeeps(s: State, p: Proc, o: Obj)
    requires Inv(s) && p in s.procs && s.procs[p].pc == Adding(o, AddPrev) && o in s.meta
    ensures Inv(Goto(Write(s, o, s.meta[o].(prev := s.last)), p, Adding(o, AddValid)))
  {
    hide Names, Counts, Places, Procs, Tables, Held, LedgerOk, ListOk, CountOk, HeldOk, EntryOk, Place, ProcOk;
    var t := Goto(Write(s, o, s.meta[o].(prev := s.last)), p, Adding(o, AddValid));
    GetProc(s, p);
    GetSegment(s, o);
    AddPrevSelf(s, t, p, o);
    MarkKeeps(s, t, p, o, s.meta[o].(prev := s.last));
  }

  lemma AddPrevSelf(s: State, t: State, p: Proc, o: Obj)
    requires p in s.procs && s.procs[p].pc == Adding(o, AddPrev) && o in s.meta && t == Goto(Write(s, o, s.meta[o].(prev := s.last)), p, Adding(o, AddValid))
    requires ProcOk(s, p, s.procs[p].pc, s.procs[p].table) && Place(s, o)
    ensures ProcOk(t, p, t.procs[p].pc, t.procs[p].table) && Place(t, o)
    ensures p in s.meta[o].trackers && s.owner == Some(p)
    ensures (s.meta[o].invalid && s.meta[o].trackers != {p} ==> t.meta[o].invalid)
    ensures (o in s.fchain ==> t.meta[o].next == s.meta[o].next) && (o in s.bchain ==> t.meta[o].prev == s.meta[o].prev)
  {}

  lemma AddValidKeeps(s: State, p: Proc, o: Obj)
    requires Inv(s) && p in s.procs && s.procs[p].pc == Adding(o, AddValid) && o in s.meta
    ensures Inv(Goto(Write(s, o, s.meta[o].(invalid := false)), p, Adding(o, AddLast)))
  {
    hide Names, Counts, Places, Procs, Tables, Held, LedgerOk, ListOk, CountOk, HeldOk, EntryOk, Place, ProcOk;
    var t := Goto(Write(s, o, s.meta[o].(invalid := false)), p, Adding(o, AddLast));
    GetProc(s, p);
    GetSegment(s, o);
    HalfListed(s, p, o);
    AddValidSelf(s, t, p, o);
    MarkKeeps(s, t, p, o, s.meta[o].(invalid := false));
  }

  lemma AddValidSelf(s: State, t: State, p: Proc, o: Obj)
    requires p in s.procs && s.procs[p].pc == Adding(o, AddValid) && o in s.meta && t == Goto(Write(s, o, s.meta[o].(invalid := false)), p, Adding(o, AddLast))
    requires ProcOk(s, p, s.procs[p].pc, s.procs[p].table) && Place(s, o) && o in s.fchain
    ensures ProcOk(t, p, t.procs[p].pc, t.procs[p].table) && Place(t, o)
    ensures p in s.meta[o].trackers && s.owner == Some(p)
    ensures (s.meta[o].invalid && s.meta[o].trackers != {p} ==> t.meta[o].invalid)
    ensures (o in s.fchain ==> t.meta[o].next == s.meta[o].next) && (o in s.bchain ==> t.meta[o].prev == s.meta[o].prev)
  {}

  lemma HalfListed(s: State, p: Proc, o: Obj)
    requires Inv(s) && p in s.procs && s.procs[p].pc == Adding(o, AddValid) && ProcOk(s, p, s.procs[p].pc, s.procs[p].table)
    ensures o in s.fchain
  {
    hide Names, Counts, Places, Procs, Tables, Held, LedgerOk;
  }

  lemma AddLastKeeps(s: State, p: Proc, o: Obj)
    requires Inv(s) && p in s.procs && s.procs[p].pc == Adding(o, AddLast) && o in s.meta
    ensures Inv(Goto(s.(last := s.meta[o].num, bchain := s.bchain + [o]), p, Adding(o, AddBump)))
  {
    hide Names, Counts, Places, Procs, Tables, Held, LedgerOk, CountOk, HeldOk, EntryOk, ListOk;
    var t := Goto(s.(last := s.meta[o].num, bchain := s.bchain + [o]), p, Adding(o, AddBump));
    GetProc(s, p);
    GetSegment(s, o);
    AddLastList(s, t, p, o);
    RelinkKeeps(s, t, p, {o});
  }

  lemma AddLastList(s: State, t: State, p: Proc, o: Obj)
    requires ListOk(s) && o in s.meta && p in s.procs && s.procs[p].pc == Adding(o, AddLast) && s.owner == Some(p)
    requires s.meta[o].prev == s.last
    requires t == Goto(s.(last := s.meta[o].num, bchain := s.bchain + [o]), p, Adding(o, AddBump))
    ensures ListOk(t)
  {
    AppendBackward(s.last, s.meta, s.bchain, o);
  }

  // ----- removing -----

  // A segment seen valid under the lock is listed: whoever is building or
  // adding it is the only one counted in.
  lemma MarkListed(s: State, p: Proc, o: Obj, r: RemoveCaller)
    requires Inv(s) && p in s.procs && s.procs[p].pc == Removing(o, RemMark, r) && o in s.meta
    ensures o in s.fchain && o in s.bchain
  {
    hide Names, Counts, Places, Procs, Tables, Held, LedgerOk, ListOk;
    GetProc(s, p);
    GetSegment(s, o);
    if UnmarkedBy(s.procs, s.creator, o) {
      GetProc(s, s.creator[o]);
    }
  }

  lemma RemMarkKeeps(s: State, p: Proc, o: Obj, r: RemoveCaller)
    requires Inv(s) && p in s.procs && s.procs[p].pc == Removing(o, RemMark, r) && o in s.meta
    ensures Inv(Goto(Write(s, o, s.meta[o].(invalid := true)), p, Removing(o, RemFixPrev, r)))
  {
    hide Names, Counts, Places, Procs, Tables, Held, LedgerOk, ListOk, CountOk, HeldOk, EntryOk, Place, ProcOk;
    var t := Goto(Write(s, o, s.meta[o].(invalid := true)), p, Removing(o, RemFixPrev, r));
    GetProc(s, p);
    GetSegment(s, o);
    MarkListed(s, p, o, r);
    RemMarkSelf(s, t, p, o, r);
    MarkKeeps(s, t, p, o, s.meta[o].(invalid := true));
  }

  lemma RemMarkSelf(s: State, t: State, p: Proc, o: Obj, r: RemoveCaller)
    requires p in s.procs && s.procs[p].pc == Removing(o, RemMark, r) && o in s.meta && t == Goto(Write(s, o, s.meta[o].(invalid := true)), p, Removing(o, RemFixPrev, r))
    requires ProcOk(s, p, s.procs[p].pc, s.procs[p].table) && Place(s, o) && o in s.fchain && o in s.bchain
    ensures ProcOk(t, p, t.procs[p].pc, t.procs[p].table) && Place(t, o)
    ensures p in s.meta[o].trackers && s.owner == Some(p)
    ensures (s.meta[o].invalid && s.meta[o].trackers != {p} ==> t.meta[o].invalid)
    ensures (o in s.fchain ==> t.meta[o].next == s.meta[o].next) && (o in s.bchain ==> t.meta[o].prev == s.meta[o].prev)
  {}

  lemma RemResetKeeps(s: State, p: Proc, o: Obj, r: RemoveCaller)
    requires Inv(s) && p in s.procs && s.procs[p].pc == Removing(o, RemReset, r) && o in s.meta
    ensures Inv(Goto(Write(s, o, s.meta[o].(next := NO_SEG, prev := NO_SEG)), p, Removing(o, RemCount, r)))
  {
    hide Names, Counts, Places, Procs, Tables, Held, LedgerOk, ListOk, CountOk, HeldOk, EntryOk, Place, ProcOk;
    var t := Goto(Write(s, o, s.meta[o].(next := NO_SEG, prev := NO_SEG)), p, Removing(o, RemCount, r));
    GetProc(s, p);
    GetSegment(s, o);
    RemResetSelf(s, t, p, o, r);
    MarkKeeps(s, t, p, o, s.meta[o].(next := NO_SEG, prev := NO_SEG));
  }

  lemma RemResetSelf(s: State, t: State, p: Proc, o: Obj, r: RemoveCaller)
    requires p in s.procs && s.procs[p].pc == Removing(o, RemReset, r) && o in s.meta && t == Goto(Write(s, o, s.meta[o].(next := NO_SEG, prev := NO_SEG)), p, Removing(o, RemCount, r))
    requires ProcOk(s, p, s.procs[p].pc, s.procs[p].table) && Place(s, o)
    ensures ProcOk(t, p, t.procs[p].pc, t.procs[p].table) && Place(t, o)
    ensures p in s.meta[o].trackers && s.owner == Some(p)
    ensures (s.meta[o].invalid && s.meta[o].trackers != {p} ==> t.meta[o].invalid)
    ensures (o in s.fchain ==> t.meta[o].next == s.meta[o].next) && (o in s.bchain ==> t.meta[o].prev == s.meta[o].prev)
  {}

  // --- the forward link ---

  // The position of the segment being removed, and what its neighbours are.
  lemma FixPrevPlace(s: State, p: Proc, o: Obj, r: RemoveCaller) returns (k: nat)
    requires Inv(s) && p in s.procs && s.procs[p].pc == Removing(o, RemFixPrev, r) && o in s.meta
    ensures s.owner == Some(p) && s.fchain == s.bchain && k < |s.fchain| && s.fchain[k] == o
    ensures s.meta[o].num == s.first <==> k == 0
    ensures Without(s.fchain, o) == s.fchain[..k] + s.fchain[k + 1..]
    ensures k > 0 && s.meta[o].prev in s.procs[p].table ==> s.procs[p].table[s.meta[o].prev] == s.fchain[k - 1]
  {
    hide Names, Counts, Places, Procs, Tables, Held, LedgerOk;
    GetProc(s, p);
    k :| 0 <= k < |s.fchain| && s.fchain[k] == o;
    WithoutAt(s.fchain, k);
    if k > 0 {
      var j := k - 1;
      assert s.meta[s.bchain[j + 1]].prev == s.meta[s.bchain[j]].num;
      if s.meta[o].num == s.first {
        ListedDistinct(s, o, s.fchain[0]);
      }
      if s.meta[o].prev in s.procs[p].table {
        EntryListed(s, p, s.fchain[j]);
      }
    }
  }

  lemma FixFirstKeeps(s: State, p: Proc, o: Obj, r: RemoveCaller)
    requires Inv(s) && p in s.procs && s.procs[p].pc == Removing(o, RemFixPrev, r) && o in s.meta && s.meta[o].num == s.first
    ensures Inv(Goto(s.(first := s.meta[o].next, fchain := Without(s.fchain, o)), p, Removing(o, RemFixNext, r)))
  {
    hide Names, Counts, Places, Procs, Tables, Held, LedgerOk, ListOk, CountOk, HeldOk, EntryOk, Place, ProcOk, Without, Relinks, RolesWithin;
    var t := Goto(s.(first := s.meta[o].next, fchain := Without(s.fchain, o)), p, Removing(o, RemFixNext, r));
    var k := FixPrevPlace(s, p, o, r);
    GetProc(s, p);
    GetSegment(s, o);
    ForwardCut(s, t, p, o, r, k, {o});
    FixFirstSelf(s, t, p, o, r);
    RelinkKeeps(s, t, p, {o});
  }

  lemma FixFirstSelf(s: State, t: State, p: Proc, o: Obj, r: RemoveCaller)
    requires p in s.procs && s.procs[p].pc == Removing(o, RemFixPrev, r) && o in s.meta
    requires t == Goto(s.(first := s.meta[o].next, fchain := Without(s.fchain, o)), p, Removing(o, RemFixNext, r))
    requires ProcOk(s, p, s.procs[p].pc, s.procs[p].table) && Place(s, o)
    requires o !in t.fchain && ListsWithin(s, t, {o})
    ensures Relinks(s, t, p, {o}) && RolesWithin(s, t, p, {o})
    ensures ProcOk(t, p, t.procs[p].pc, t.procs[p].table) && Place(t, o)
  {
    hide Without;
  }

  lemma FixPrevKeeps(s: State, p: Proc, o: Obj, r: RemoveCaller, z: Obj)
    requires Inv(s) && p in s.procs && s.procs[p].pc == Removing(o, RemFixPrev, r) && o in s.meta && s.meta[o].num != s.first
    requires s.meta[o].prev in s.procs[p].table && s.procs[p].table[s.meta[o].prev] == z && z in s.meta
    ensures Inv(Goto(Write(s.(fchain := Without(s.fchain, o)), z, s.meta[z].(next := s.meta[o].next)), p, Removing(o, RemFixNext, r)))
  {
    hide Names, Counts, Places, Procs, Tables, Held, LedgerOk, ListOk, CountOk, HeldOk, EntryOk, Place, ProcOk, Without, Relinks, RolesWithin;
    var t := Goto(Write(s.(fchain := Without(s.fchain, o)), z, s.meta[z].(next := s.meta[o].next)), p, Removing(o, RemFixNext, r));
    var k := FixPrevPlace(s, p, o, r);
    GetProc(s, p);
    GetSegment(s, o);
    GetSegment(s, z);
    GetEntry(s, p, s.meta[o].prev);
    assert z == s.fchain[k - 1] && z in s.fchain && z != o by { ChainApart(s, k - 1, k); }
    ForwardCut(s, t, p, o, r, k, {o, z});
    FixPrevSelf(s, t, p, o, r, z);
    FixPrevRelinks(s, t, p, o, r, z);
    RelinkKeeps(s, t, p, {o, z});
  }

  lemma ChainApart(s: State, i: int, j: int)
    requires ListOk(s)
    ensures 0 <= i < j < |s.fchain| ==> s.fchain[i] != s.fchain[j]
    ensures 0 <= i < j < |s.bchain| ==> s.bchain[i] != s.bchain[j]
  {}

  lemma FixPrevSelf(s: State, t: State, p: Proc, o: Obj, r: RemoveCaller, z: Obj)
    requires p in s.procs && s.procs[p].pc == Removing(o, RemFixPrev, r) && o in s.meta && z in s.meta
    requires t == Goto(Write(s.(fchain := Without(s.fchain, o)), z, s.meta[z].(next := s.meta[o].next)), p, Removing(o, RemFixNext, r))
    requires ProcOk(s, p, s.procs[p].pc, s.procs[p].table) && Place(s, o) && Place(s, z) && EntryOk(s.meta, p, s.meta[o].prev, z)
    requires s.fchain == s.bchain && z in s.fchain && z != o
    requires o !in t.fchain && (forall x :: x in s.fchain && x != o ==> x in t.fchain) && ListsWithin(s, t, {o, z})
    ensures ProcOk(t, p, t.procs[p].pc, t.procs[p].table) && Place(t, o) && Place(t, z)
  {
    hide Without;
  }

  lemma FixPrevRelinks(s: State, t: State, p: Proc, o: Obj, r: RemoveCaller, z: Obj)
    requires p in s.procs && s.procs[p].pc == Removing(o, RemFixPrev, r) && o in s.meta && z in s.meta
    requires t == Goto(Write(s.(fchain := Without(s.fchain, o)), z, s.meta[z].(next := s.meta[o].next)), p, Removing(o, RemFixNext, r))
    requires ProcOk(s, p, s.procs[p].pc, s.procs[p].table) && EntryOk(s.meta, p, s.meta[o].prev, z)
    requires s.fchain == s.bchain && z in s.fchain && z != o
    requires o !in t.fchain && (forall x :: x in s.fchain && x != o ==> x in t.fchain) && ListsWithin(s, t, {o, z})
    ensures Relinks(s, t, p, {o, z}) && RolesWithin(s, t, p, {o, z})
  {
    hide Without, Relinks, RolesWithin, ProcOk, EntryOk, Goto, Write;
    FixPrevRoles(s, t, p, o, r, z);
    FixPrevParts(s, t, p, o, r, z);
  }

  lemma FixPrevRoles(s: State, t: State, p: Proc, o: Obj, r: RemoveCaller, z: Obj)
    requires p in s.procs && s.procs[p].pc == Removing(o, RemFixPrev, r) && o in s.meta && z in s.meta
    requires t == Goto(Write(s.(fchain := Without(s.fchain, o)), z, s.meta[z].(next := s.meta[o].next)), p, Removing(o, RemFixNext, r))
    requires ProcOk(s, p, s.procs[p].pc, s.procs[p].table) && EntryOk(s.meta, p, s.meta[o].prev, z)
    requires s.fchain == s.bchain && z in s.fchain && z != o
    requires o !in t.fchain && (forall x :: x in s.fchain && x != o ==> x in t.fchain) && ListsWithin(s, t, {o, z})
    ensures RolesWithin(s, t, p, {o, z})
  {
    hide Without;
  }

  lemma FixPrevParts(s: State, t: State, p: Proc, o: Obj, r: RemoveCaller, z: Obj)
    requires p in s.procs && s.procs[p].pc == Removing(o, RemFixPrev, r) && o in s.meta && z in s.meta
    requires t == Goto(Write(s.(fchain := Without(s.fchain, o)), z, s.meta[z].(next := s.meta[o].next)), p, Removing(o, RemFixNext, r))
    requires ProcOk(s, p, s.procs[p].pc, s.procs[p].table) && EntryOk(s.meta, p, s.meta[o].prev, z)
    requires s.fchain == s.bchain && z in s.fchain && z != o
    requires o !in t.fchain && (forall x :: x in s.fchain && x != o ==> x in t.fchain) && ListsWithin(s, t, {o, z})
    ensures Relinks(s, t, p, {o, z})
  {
    hide Without;
  }

  lemma ForwardCut(s: State, t: State, p: Proc, o: Obj, r: RemoveCaller, k: nat, d: set<Obj>)
    requires ListOk(s) && s.owner == Some(p) && o in s.meta && Framed(s, t, p, d) && o in d
    requires s.procs[p].pc == Removing(o, RemFixPrev, r) && t.procs[p].pc == Removing(o, RemFixNext, r)
    requires s.fchain == s.bchain && k < |s.fchain| && s.fchain[k] == o
    requires t.fchain == s.fchain[..k] + s.fchain[k + 1..] == Without(s.fchain, o) && t.bchain == s.bchain
    requires t.last == s.last && t.numShared == s.numShared && t.owner == s.owner
    requires forall x :: x in s.meta ==> t.meta[x].prev == s.meta[x].prev
    requires if k == 0 then t.meta == s.meta && t.first == s.meta[o].next
             else t.first == s.first && s.fchain[k - 1] in s.meta && t.meta == s.meta[s.fchain[k - 1] := s.meta[s.fchain[k - 1]].(next := s.meta[o].next)]
    ensures ListOk(t) && o !in t.fchain && ListsWithin(s, t, d)
    ensures forall x :: x in s.fchain && x != o ==> x in t.fchain
  {
    hide ListOk, Without, Forward, Backward, NoDup;
    ListParts(s);
    WithoutMembers(s.fchain, o);
    ForwardCutLinks(s.first, t.first, s.meta, t.meta, s.fchain, k);
    PrevStays(s.last, s.meta, t.meta, s.bchain);
    HalfCutOk(t, p, o, r);
  }

  lemma PrevStays(last: int, m: map<Obj, Meta>, m': map<Obj, Meta>, c: seq<Obj>)
    requires Backward(last, m, c) && m'.Keys == m.Keys && forall x :: x in m ==> m'[x].prev == m[x].prev && m'[x].num == m[x].num
    ensures Backward(last, m', c)
  {}

  // With the removed segment cut out of the forward reading only.
  lemma HalfCutOk(t: State, p: Proc, o: Obj, r: RemoveCaller)
    requires t.owner == Some(p) && p in t.procs && t.procs[p].pc == Removing(o, RemFixNext, r)
    requires o in t.bchain && o !in t.fchain && t.fchain == Without(t.bchain, o) && NoDup(t.fchain) && NoDup(t.bchain) && t.numShared == |t.bchain|
    requires Forward(t.first, t.meta, t.fchain) && Backward(t.last, t.meta, t.bchain)
    requires CutOk(t.procs[p].pc, t.meta, t.bchain)
    ensures ListOk(t)
  {}

  lemma ForwardCutLinks(first: int, first': int, m: map<Obj, Meta>, m': map<Obj, Meta>, c: seq<Obj>, k: nat)
    requires Forward(first, m, c) && NoDup(c) && k < |c|
    requires if k == 0 then m' == m && first' == m[c[0]].next
             else first' == first && m' == m[c[k - 1] := m[c[k - 1]].(next := m[c[k]].next)]
    ensures Forward(first', m', c[..k] + c[k + 1..]) && NoDup(c[..k] + c[k + 1..])
    ensures forall i :: 0 <= i < |c| ==> c[i] in m'
    ensures |c| > 0 && c[|c| - 1] == c[k] ==> m'[c[k]].next == NO_SEG
    ensures forall i :: 0 <= i < |c| - 1 && c[i] == c[k] ==> m'[c[k]].next == m'[c[i + 1]].num
  {
    CutForward(first, first', m, m', c, k);
  }

  // --- the backward link ---

  lemma FixNextPlace(s: State, p: Proc, o: Obj, r: RemoveCaller) returns (k: nat)
    requires Inv(s) && p in s.procs && s.procs[p].pc == Removing(o, RemFixNext, r) && o in s.meta
    ensures s.owner == Some(p) && k < |s.bchain| && s.bchain[k] == o && s.fchain == Without(s.bchain, o)
    ensures s.meta[o].num == s.last <==> k == |s.bchain| - 1
    ensures Without(s.bchain, o) == s.bchain[..k] + s.bchain[k + 1..]
    ensures k < |s.bchain| - 1 && s.meta[o].next in s.procs[p].table ==> s.procs[p].table[s.meta[o].next] == s.bchain[k + 1]
  {
    hide Names, Counts, Places, Procs, Tables, Held, LedgerOk;
    GetProc(s, p);
    k :| 0 <= k < |s.bchain| && s.bchain[k] == o;
    WithoutAt(s.bchain, k);
    if k < |s.bchain| - 1 {
      assert s.meta[o].next == s.meta[s.bchain[k + 1]].num;
      if s.meta[o].num == s.last {
        ListedDistinct(s, o, s.bchain[|s.bchain| - 1]);
      }
      if s.meta[o].next in s.procs[p].table {
        EntryListed(s, p, s.bchain[k + 1]);
      }
    }
  }

  lemma FixLastKeeps(s: State, p: Proc, o: Obj, r: RemoveCaller)
    requires Inv(s) && p in s.procs && s.procs[p].pc == Removing(o, RemFixNext, r) && o in s.meta && s.meta[o].num == s.last
    ensures Inv(Goto(s.(last := s.meta[o].prev, bchain := Without(s.bchain, o)), p, Removing(o, RemReset, r)))
  {
    hide Names, Counts, Places, Procs, Tables, Held, LedgerOk, ListOk, CountOk, HeldOk, EntryOk, Place, ProcOk, Without, Relinks, RolesWithin;
    var t := Goto(s.(last := s.meta[o].prev, bchain := Without(s.bchain, o)), p, Removing(o, RemReset, r));
    var k := FixNextPlace(s, p, o, r);
    GetProc(s, p);
    GetSegment(s, o);
    BackwardCut(s, t, p, o, r, k, {o});
    FixLastSelf(s, t, p, o, r);
    RelinkKeeps(s, t, p, {o});
  }

  lemma FixLastSelf(s: State, t: State, p: Proc, o: Obj, r: RemoveCaller)
    requires p in s.procs && s.procs[p].pc == Removing(o, RemFixNext, r) && o in s.meta
    requires t == Goto(s.(last := s.meta[o].prev, bchain := Without(s.bchain, o)), p, Removing(o, RemReset, r))
    requires ProcOk(s, p, s.procs[p].pc, s.procs[p].table) && Place(s, o)
    requires o !in t.bchain && o !in t.fchain && ListsWithin(s, t, {o})
    ensures Relinks(s, t, p, {o}) && RolesWithin(s, t, p, {o})
    ensures ProcOk(t, p, t.procs[p].pc, t.procs[p].table) && Place(t, o)
  {
    hide Without;
  }

  lemma FixNextKeeps(s: State, p: Proc, o: Obj, r: RemoveCaller, z: Obj)
    requires Inv(s) && p in s.procs && s.procs[p].pc == Removing(o, RemFixNext, r) && o in s.meta && s.meta[o].num != s.last
    requires s.meta[o].next in s.procs[p].table && s.procs[p].table[s.meta[o].next] == z && z in s.meta
    ensures Inv(Goto(Write(s.(bchain := Without(s.bchain, o)), z, s.meta[z].(prev := s.meta[o].prev)), p, Removing(o, RemReset, r)))
  {
    hide Names, Counts, Places, Procs, Tables, Held, LedgerOk, ListOk, CountOk, HeldOk, EntryOk, Place, ProcOk, Without, Relinks, RolesWithin;
    var t := Goto(Write(s.(bchain := Without(s.bchain, o)), z, s.meta[z].(prev := s.meta[o].prev)), p, Removing(o, RemReset, r));
    var k := FixNextPlace(s, p, o, r);
    GetProc(s, p);
    GetSegment(s, o);
    GetSegment(s, z);
    GetEntry(s, p, s.meta[o].next);
    assert z == s.bchain[k + 1] && z in s.bchain && z != o by { ChainApart(s, k, k + 1); }
    BackwardCut(s, t, p, o, r, k, {o, z});
    FixNextSelf(s, t, p, o, r, z);
    FixNextRelinks(s, t, p, o, r, z);
    RelinkKeeps(s, t, p, {o, z});
  }

  lemma FixNextSelf(s: State, t: State, p: Proc, o: Obj, r: RemoveCaller, z: Obj)
    requires p in s.procs && s.procs[p].pc == Removing(o, RemFixNext, r) && o in s.meta && z in s.meta
    requires t == Goto(Write(s.(bchain := Without(s.bchain, o)), z, s.meta[z].(prev := s.meta[o].prev)), p, Removing(o, RemReset, r))
    requires ProcOk(s, p, s.procs[p].pc, s.procs[p].table) && Place(s, o) && Place(s, z) && EntryOk(s.meta, p, s.meta[o].next, z)
    requires z in s.bchain && z != o && t.bchain == s.fchain
    requires o !in t.bchain && o !in t.fchain && (forall x :: x in s.bchain && x != o ==> x in t.bchain) && ListsWithin(s, t, {o, z})
    ensures ProcOk(t, p, t.procs[p].pc, t.procs[p].table) && Place(t, o) && Place(t, z)
  {
    hide Without;
  }

  lemma FixNextRelinks(s: State, t: State, p: Proc, o: Obj, r: RemoveCaller, z: Obj)
    requires p in s.procs && s.procs[p].pc == Removing(o, RemFixNext, r) && o in s.meta && z in s.meta
    requires t == Goto(Write(s.(bchain := Without(s.bchain, o)), z, s.meta[z].(prev := s.meta[o].prev)), p, Removing(o, RemReset, r))
    requires ProcOk(s, p, s.procs[p].pc, s.procs[p].table) && EntryOk(s.meta, p, s.meta[o].next, z)
    requires z in s.bchain && z != o && t.bchain == s.fchain
    requires o !in t.bchain && o !in t.fchain && (forall x :: x in s.bchain && x != o ==> x in t.bchain) && ListsWithin(s, t, {o, z})
    ensures Relinks(s, t, p, {o, z}) && RolesWithin(s, t, p, {o, z})
  {
    hide Without, Relinks, RolesWithin, ProcOk, EntryOk, Goto, Write;
    FixNextRoles(s, t, p, o, r, z);
    FixNextParts(s, t, p, o, r, z);
  }

  lemma FixNextRoles(s: State, t: State, p: Proc, o: Obj, r: RemoveCaller, z: Obj)
    requires p in s.procs && s.procs[p].pc == Removing(o, RemFixNext, r) && o in s.meta && z in s.meta
    requires t == Goto(Write(s.(bchain := Without(s.bchain, o)), z, s.meta[z].(prev := s.meta[o].prev)), p, Removing(o, RemReset, r))
    requires ProcOk(s, p, s.procs[p].pc, s.procs[p].table) && EntryOk(s.meta, p, s.meta[o].next, z)
    requires z in s.bchain && z != o && t.bchain == s.fchain
    requires o !in t.bchain && o !in t.fchain && (forall x :: x in s.bchain && x != o ==> x in t.bchain) && ListsWithin(s, t, {o, z})
    ensures RolesWithin(s, t, p, {o, z})
  {
    hide Without;
  }

  lemma FixNextParts(s: State, t: State, p: Proc, o: Obj, r: RemoveCaller, z: Obj)
    requires p in s.procs && s.procs[p].pc == Removing(o, RemFixNext, r) && o in s.meta && z in s.meta
    requires t == Goto(Write(s.(bchain := Without(s.bchain, o)), z, s.meta[z].(prev := s.meta[o].prev)), p, Removing(o, RemReset, r))
    requires ProcOk(s, p, s.procs[p].pc, s.procs[p].table) && EntryOk(s.meta, p, s.meta[o].next, z)
    requires z in s.bchain && z != o && t.bchain == s.fchain
    requires o !in t.bchain && o !in t.fchain && (forall x :: x in s.bchain && x != o ==> x in t.bchain) && ListsWithin(s, t, {o, z})
    ensures Relinks(s, t, p, {o, z})
  {
    hide Without;
  }

  lemma BackwardCut(s: State, t: State, p: Proc, o: Obj, r: RemoveCaller, k: nat, d: set<Obj>)
    requires ListOk(s) && s.owner == Some(p) && o in s.meta && Framed(s, t, p, d) && o in d
    requires s.procs[p].pc == Removing(o, RemFixNext, r) && t.procs[p].pc == Removing(o, RemReset, r)
    requires s.fchain == Without(s.bchain, o) && k < |s.bchain| && s.bchain[k] == o
    requires t.bchain == s.bchain[..k] + s.bchain[k + 1..] == Without(s.bchain, o) && t.fchain == s.fchain
    requires t.first == s.first && t.numShared == s.numShared && t.owner == s.owner
    requires forall x :: x in s.meta ==> t.meta[x].next == s.meta[x].next
    requires if k == |s.bchain| - 1 then t.meta == s.meta && t.last == s.meta[o].prev
             else t.last == s.last && s.bchain[k + 1] in s.meta && t.meta == s.meta[s.bchain[k + 1] := s.meta[s.bchain[k + 1]].(prev := s.meta[o].prev)]
    ensures ListOk(t) && o !in t.bchain && o !in t.fchain && ListsWithin(s, t, d)
    ensures forall x :: x in s.bchain && x != o ==> x in t.bchain
  {
    hide ListOk, Without, Forward, Backward, NoDup;
    ListParts(s);
    WithoutMembers(s.bchain, o);
    CutBackwardLinks(s.last, t.last, s.meta, t.meta, s.bchain, k);
    NextStays(s.first, s.meta, t.meta, s.fchain);
    CutListOk(t, p, o, r);
  }

  lemma ListParts(s: State)
    requires ListOk(s)
    ensures NoDup(s.fchain) && NoDup(s.bchain) && Forward(s.first, s.meta, s.fchain) && Backward(s.last, s.meta, s.bchain)
    ensures s.numShared == |s.bchain| + Ahead(Holder(s.owner, s.procs))
  {}

  lemma NextStays(first: int, m: map<Obj, Meta>, m': map<Obj, Meta>, c: seq<Obj>)
    requires Forward(first, m, c) && m'.Keys == m.Keys && forall x :: x in m ==> m'[x].next == m[x].next && m'[x].num == m[x].num
    ensures Forward(first, m', c)
  {}

  lemma CutBackwardLinks(last: int, last': int, m: map<Obj, Meta>, m': map<Obj, Meta>, c: seq<Obj>, k: nat)
    requires Backward(last, m, c) && NoDup(c) && k < |c|
    requires if k == |c| - 1 then m' == m && last' == m[c[k]].prev
             else last' == last && m' == m[c[k + 1] := m[c[k + 1]].(prev := m[c[k]].prev)]
    ensures Backward(last', m', c[..k] + c[k + 1..]) && NoDup(c[..k] + c[k + 1..])
  {
    CutBackward(last, last', m, m', c, k);
  }

  // With the removed segment cut out of both readings.
  lemma CutListOk(t: State, p: Proc, o: Obj, r: RemoveCaller)
    requires t.owner == Some(p) && p in t.procs && t.procs[p].pc == Removing(o, RemReset, r)
    requires t.fchain == t.bchain && NoDup(t.bchain) && t.numShared == |t.bchain| + 1
    requires Forward(t.first, t.meta, t.fchain) && Backward(t.last, t.meta, t.bchain)
    ensures ListOk(t)
  {}
}
