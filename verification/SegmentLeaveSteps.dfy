/** Steps that leave a segment: dropping it from the table, the final
    compare-and-swap of the detach loop, and what its winner does next. */
module SegmentLeaveSteps {
  import opened Counters
  import opened Options
  import opened SegmentModel
  import opened SegmentInvariant
  import opened SegmentFrames
  import opened SegmentTestSteps
  import opened Sums

  // ----- dropping a segment from the table -----

  lemma UntrackKeeps(s: State, p: Proc, n: int)
    requires Inv(s) && p in s.procs && n in s.procs[p].table
    requires s.procs[p].pc == Idle || s.procs[p].pc == Adding(s.procs[p].table[n], AddCheck)
    ensures Inv(Untrack(s, p, n, Detaching(s.procs[p].table[n])))
  {
    hide Names, Counts, Places, Procs, Tables, Held, LedgerOk, ListOk, CountOk, Place, ProcOk, HeldOk, EntryOk;
    var o := s.procs[p].table[n];
    var t := Untrack(s, p, n, Detaching(o));
    GetEntry(s, p, n);
    UntrackSelf(s, t, p, n);
    forall k | k in t.procs[p].table ensures EntryOk(t.meta, p, k, t.procs[p].table[k]) {
      GetEntry(s, p, k);
    }
    forall o' | o' in s.meta && o' in t.meta ensures HeldOk(o', t.meta[o'], p, t.procs[p]) {
      GetHeld(s, p, o');
      UntrackHeld(s, t, p, n, o');
    }
    ListSame(s, t);
    FrameKeeps(s, t, p, {});
  }

  ghost predicate Untracks(s: State, t: State, p: Proc, n: int) {
    p in s.procs && n in s.procs[p].table && t == Untrack(s, p, n, Detaching(s.procs[p].table[n]))
  }

  lemma UntrackSelf(s: State, t: State, p: Proc, n: int)
    requires Untracks(s, t, p, n) && EntryOk(s.meta, p, n, s.procs[p].table[n])
    ensures ProcOk(t, p, t.procs[p].pc, t.procs[p].table)
  {}

  lemma UntrackHeld(s: State, t: State, p: Proc, n: int, o: Obj)
    requires Untracks(s, t, p, n) && o in s.meta && HeldOk(o, s.meta[o], p, s.procs[p])
    requires s.procs[p].pc == Idle || s.procs[p].pc == Adding(s.procs[p].table[n], AddCheck)
    ensures HeldOk(o, t.meta[o], p, t.procs[p])
  {}

  // ----- the compare-and-swap -----

  function Left(m: Meta, p: Proc): Meta {
    m.(ctr := Down(m.ctr), trackers := m.trackers - {p})
  }

  function Flagged(m: Meta, p: Proc): Meta {
    Left(m, p).(ctr := Down(m.ctr).(flag := true), flips := m.flips + 1, flagger := Some(p))
  }

  // Process `p` leaves segment `o`; all else but its own state stays.
  ghost predicate Leaves(s: State, t: State, p: Proc, o: Obj, m: Meta) {
    && o in s.meta && p in s.procs && p in t.procs
    && t.meta == s.meta[o := m] && m.num == s.meta[o].num && m.size == s.meta[o].size
    && m.trackers == s.meta[o].trackers - {p} && m.invalid == s.meta[o].invalid && m.next == s.meta[o].next && m.prev == s.meta[o].prev
    && t.procs == s.procs[p := Process(t.procs[p].pc, s.procs[p].table)]
    && SameLists(s, t) && t.names == s.names && t.live == s.live && t.creator == s.creator && t.owner == s.owner
  }

  lemma LeaveTables(s: State, t: State, p: Proc, o: Obj, m: Meta)
    requires Leaves(s, t, p, o, m) && Tables(s) && m.num !in s.procs[p].table
    ensures forall n :: n in t.procs[p].table ==> EntryOk(t.meta, p, n, t.procs[p].table[n])
  {
    forall n | n in t.procs[p].table ensures EntryOk(t.meta, p, n, t.procs[p].table[n]) {
      GetEntry(s, p, n);
    }
  }

  lemma LeaveHeld(s: State, t: State, p: Proc, o: Obj, m: Meta)
    requires Leaves(s, t, p, o, m) && Held(s) && s.procs[p].pc.Swapping? && s.procs[p].pc.o == o
    ensures forall x :: x in s.meta && x in t.meta ==> HeldOk(x, t.meta[x], p, t.procs[p])
  {
    forall x | x in s.meta && x in t.meta ensures HeldOk(x, t.meta[x], p, t.procs[p]) {
      GetHeld(s, p, x);
    }
  }

  lemma SwapFacts(s: State, p: Proc, o: Obj, seen: Counter, flagging: bool)
    requires Inv(s) && p in s.procs && s.procs[p].pc == Swapping(o, seen, flagging) && o in s.meta && s.meta[o].ctr == seen
    ensures p in s.meta[o].trackers && !seen.flag && s.meta[o].num !in s.procs[p].table
    ensures (flagging ==> seen.count == 1 && s.meta[o].invalid && s.meta[o].trackers == {p}) && (!flagging ==> 2 <= seen.count)
    ensures seen.count == |s.meta[o].trackers| < COUNT_WRAP
  {
    hide Names, Counts, Places, Procs, Tables, Held, LedgerOk, ListOk;
    GetProc(s, p);
    GetSegment(s, o);
    CountBound(s, o);
    assert |s.meta[o].trackers - {p}| == |s.meta[o].trackers| - 1;
    if flagging {
      assert s.meta[o].trackers - {p} == {};
    }
  }

  // --- somebody else is still counted in ---

  lemma SwapLeaveKeeps(s: State, p: Proc, o: Obj, seen: Counter)
    requires Inv(s) && p in s.procs && s.procs[p].pc == Swapping(o, seen, false) && o in s.meta && s.meta[o].ctr == seen
    ensures Inv(Goto(Write(s, o, Left(s.meta[o], p)), p, Idle))
  {
    hide Names, Counts, Places, Procs, Tables, Held, LedgerOk, ListOk, CountOk, Place, ProcOk, HeldOk, EntryOk;
    var t := Goto(Write(s, o, Left(s.meta[o], p)), p, Idle);
    GetSegment(s, o);
    SwapFacts(s, p, o, seen, false);
    LeaveSegment(s, t, p, o);
    LeaveOthers(s, t, p, o, Left(s.meta[o], p));
    IdleOk(t, p, s.procs[p].table);
    LeavesKeep(s, p, o, Left(s.meta[o], p), Idle);
  }

  // A swap that succeeds, put together.
  lemma LeavesKeep(s: State, p: Proc, o: Obj, m: Meta, pc: Pc)
    requires Inv(s) && p in s.procs && s.procs[p].pc.Swapping? && s.procs[p].pc.o == o && (pc == Idle || pc == Finishing(o, Unlink))
    requires Leaves(s, Goto(Write(s, o, m), p, pc), p, o, m) && m.num !in s.procs[p].table
    requires
      var t := Goto(Write(s, o, m), p, pc);
      && CountOk(o, m, t.names, t.live, t.procs.Keys) && Place(t, o) && ProcOk(t, p, pc, s.procs[p].table)
      && forall q :: q in s.procs && q != p && !(PcObjs(s.procs[q].pc) !! {o}) ==> ProcOk(t, q, s.procs[q].pc, s.procs[q].table)
    ensures Inv(Goto(Write(s, o, m), p, pc))
  {
    hide Names, Counts, Places, Procs, Tables, Held, LedgerOk, ListOk, CountOk, Place, ProcOk, HeldOk, EntryOk;
    hide Framed, RolesWithin, OnlyCounts, SameListed, SameList;
    var t := Goto(Write(s, o, m), p, pc);
    LeaveTables(s, t, p, o, m);
    LeaveHeld(s, t, p, o, m);
    LeavesFrame(s, t, p, o, m);
    ListSame(s, t);
    FrameKeeps(s, t, p, {o});
  }

  lemma LeavesFrame(s: State, t: State, p: Proc, o: Obj, m: Meta)
    requires Leaves(s, t, p, o, m) && t.nextObj == s.nextObj && t.maxSize == s.maxSize && t.numShared == s.numShared
    requires s.procs[p].pc.Swapping? && s.procs[p].pc.o == o && (t.procs[p].pc == Idle || t.procs[p].pc == Finishing(o, Unlink))
    ensures Framed(s, t, p, {o}) && RolesWithin(s, t, p, {o}) && OnlyCounts(s, t, p) && SameListed(s, t)
    ensures SameList(Holder(s.owner, s.procs), Holder(t.owner, t.procs))
  {}

  lemma IdleOk(t: State, p: Proc, table: map<int, Obj>)
    ensures ProcOk(t, p, Idle, table)
  {}

  lemma LeaveSegment(s: State, t: State, p: Proc, o: Obj)
    requires o in s.meta && Leaves(s, t, p, o, Left(s.meta[o], p)) && t.procs[p].pc == Idle && s.procs[p].pc.Swapping?
    requires CountOk(o, s.meta[o], s.names, s.live, s.procs.Keys) && Place(s, o)
    requires p in s.meta[o].trackers && 2 <= s.meta[o].ctr.count < COUNT_WRAP
    ensures CountOk(o, t.meta[o], t.names, t.live, t.procs.Keys) && Place(t, o)
  {
    var m := s.meta[o];
    assert |m.trackers - {p}| == |m.trackers| - 1;
    assert m.trackers - {p} != {};
    assert Down(m.ctr).count == m.ctr.count - 1;
  }

  // Whoever is alone in a segment is not `p`'s companion, and the others only
  // care that they are still counted in.
  lemma LeaveOther(s: State, t: State, p: Proc, o: Obj, m: Meta, q: Proc, x: Process)
    requires Leaves(s, t, p, o, m) && q != p && ProcOk(s, q, x.pc, x.table)
    requires p in s.meta[o].trackers && m.ctr.flag == s.meta[o].ctr.flag && m.flagger == s.meta[o].flagger
    ensures ProcOk(t, q, x.pc, x.table)
  {}

  lemma LeaveOthers(s: State, t: State, p: Proc, o: Obj, m: Meta)
    requires o in s.meta && Leaves(s, t, p, o, m) && Procs(s)
    requires p in s.meta[o].trackers && m.ctr.flag == s.meta[o].ctr.flag && m.flagger == s.meta[o].flagger
    ensures forall q :: q in s.procs && q != p ==> ProcOk(t, q, s.procs[q].pc, s.procs[q].table)
  {
    hide ProcOk;
    forall q | q in s.procs && q != p ensures ProcOk(t, q, s.procs[q].pc, s.procs[q].table) {
      GetProc(s, q);
      LeaveOther(s, t, p, o, m, q, s.procs[q]);
    }
  }

  // --- the last one out sets the flag ---

  lemma SwapFlagKeeps(s: State, p: Proc, o: Obj, seen: Counter)
    requires Inv(s) && p in s.procs && s.procs[p].pc == Swapping(o, seen, true) && o in s.meta && s.meta[o].ctr == seen
    ensures Inv(Goto(Write(s, o, Flagged(s.meta[o], p)), p, Finishing(o, Unlink)))
  {
    hide Names, Counts, Places, Procs, Tables, Held, LedgerOk, ListOk, CountOk, Place, ProcOk, HeldOk, EntryOk;
    var t := Goto(Write(s, o, Flagged(s.meta[o], p)), p, Finishing(o, Unlink));
    GetSegment(s, o);
    SwapFacts(s, p, o, seen, true);
    LastUnlisted(s, p, o, seen);
    FlagSegment(s, t, p, o);
    FlagOthers(s, t, p, o);
    LeavesKeep(s, p, o, Flagged(s.meta[o], p), Finishing(o, Unlink));
  }

  // The key case.  The last process counted in has seen the segment invalid.
  // Whoever made it invalid and is still cutting it out of the list would be
  // counted in as well, so the segment is out of the list already.
  lemma LastUnlisted(s: State, p: Proc, o: Obj, seen: Counter)
    requires Inv(s) && p in s.procs && s.procs[p].pc == Swapping(o, seen, true) && o in s.meta
    requires s.meta[o].trackers == {p} && s.meta[o].invalid
    ensures o !in s.fchain && o !in s.bchain
  {
    hide Names, Counts, Places, Procs, Tables, Held, LedgerOk, ListOk;
    GetSegment(s, o);
    if o in s.fchain || o in s.bchain {
      GetProc(s, s.owner.value);
    }
  }

  lemma FlagSegment(s: State, t: State, p: Proc, o: Obj)
    requires o in s.meta && Leaves(s, t, p, o, Flagged(s.meta[o], p)) && t.procs[p].pc == Finishing(o, Unlink) && s.procs[p].pc.Swapping?
    requires CountOk(o, s.meta[o], s.names, s.live, s.procs.Keys) && Place(s, o)
    requires s.meta[o].trackers == {p} && s.meta[o].ctr.count == 1 && !s.meta[o].ctr.flag && o !in s.fchain && o !in s.bchain
    ensures CountOk(o, t.meta[o], t.names, t.live, t.procs.Keys) && Place(t, o)
    ensures ProcOk(t, p, t.procs[p].pc, t.procs[p].table)
  {}

  lemma FlagOther(s: State, t: State, p: Proc, o: Obj, q: Proc, x: Process)
    requires o in s.meta && Leaves(s, t, p, o, Flagged(s.meta[o], p)) && q != p && ProcOk(s, q, x.pc, x.table)
    requires s.meta[o].trackers == {p} && !s.meta[o].ctr.flag && s.meta[o].invalid && o !in s.fchain && o !in s.bchain
    ensures ProcOk(t, q, x.pc, x.table)
  {}

  lemma FlagOthers(s: State, t: State, p: Proc, o: Obj)
    requires o in s.meta && Leaves(s, t, p, o, Flagged(s.meta[o], p)) && Procs(s)
    requires s.meta[o].trackers == {p} && !s.meta[o].ctr.flag && s.meta[o].invalid && o !in s.fchain && o !in s.bchain
    ensures forall q :: q in s.procs && q != p ==> ProcOk(t, q, s.procs[q].pc, s.procs[q].table)
  {
    hide ProcOk;
    forall q | q in s.procs && q != p ensures ProcOk(t, q, s.procs[q].pc, s.procs[q].table) {
      GetProc(s, q);
      FlagOther(s, t, p, o, q, s.procs[q]);
    }
  }

  // ----- what the last one out does next -----

  lemma FinishFacts(s: State, p: Proc, o: Obj, f: FinishStage)
    requires Inv(s) && p in s.procs && s.procs[p].pc == Finishing(o, f)
    ensures o in s.meta && FinishOk(p, o, s.meta[o], f, s.names, s.live) && s.meta[o].trackers == {}
    ensures o !in s.fchain && o !in s.bchain
    ensures s.live[o] == s.meta[o].size
  {
    hide Names, Counts, Places, Procs, Tables, Held, LedgerOk, ListOk;
    GetProc(s, p);
    GetSegment(s, o);
  }

  // Process `p` finishes segment `o`: only bookkeeping of `o` changes.
  ghost predicate Finishes(s: State, t: State, p: Proc, o: Obj, m: Meta) {
    && o in s.meta && p in s.procs && p in t.procs
    && t.meta == s.meta[o := m] && m.num == s.meta[o].num && m.size == s.meta[o].size
    && m.trackers == s.meta[o].trackers && m.invalid == s.meta[o].invalid && m.next == s.meta[o].next && m.prev == s.meta[o].prev
    && m.ctr.flag == s.meta[o].ctr.flag && m.ctr.count == s.meta[o].ctr.count && m.flagger == s.meta[o].flagger && m.flips == s.meta[o].flips
    && t.procs == s.procs[p := Process(t.procs[p].pc, s.procs[p].table)]
    && SameLists(s, t) && t.creator == s.creator && t.owner == s.owner && t.level == s.level
    && t.nextObj == s.nextObj && t.maxSize == s.maxSize && t.numShared == s.numShared
    && s.procs[p].pc.Finishing? && s.procs[p].pc.o == o
    && (t.procs[p].pc == Idle || (t.procs[p].pc.Finishing? && t.procs[p].pc.o == o))
    && (t.names == s.names || (m.num in s.names && s.names[m.num] == o && t.names == s.names - {m.num}))
    && (t.live == s.live || t.live == s.live - {o})
  }

  // No other process refers to a segment it did not flag, once it is flagged.
  lemma FinishOther(s: State, t: State, p: Proc, o: Obj, m: Meta, q: Proc, x: Process)
    requires Finishes(s, t, p, o, m) && q != p && ProcOk(s, q, x.pc, x.table)
    requires m.ctr.flag && m.flagger == Some(p) && m.trackers == {} && o !in s.fchain && o !in s.bchain
    ensures ProcOk(t, q, x.pc, x.table)
  {}

  lemma FinishProcs(s: State, t: State, p: Proc, o: Obj, m: Meta)
    requires Finishes(s, t, p, o, m) && Procs(s) && ProcOk(t, p, t.procs[p].pc, t.procs[p].table)
    requires m.ctr.flag && m.flagger == Some(p) && m.trackers == {} && o !in s.fchain && o !in s.bchain
    ensures Procs(t)
  {
    hide ProcOk;
    forall q | q in t.procs ensures ProcOk(t, q, t.procs[q].pc, t.procs[q].table) {
      GetProc(s, q);
      if q != p {
        FinishOther(s, t, p, o, m, q, s.procs[q]);
      }
    }
  }

  lemma FinishCounts(s: State, t: State, p: Proc, o: Obj, m: Meta)
    requires Finishes(s, t, p, o, m) && Counts(s) && m.ctr.flag
    requires m.unlinks == (if NamedAs(t.names, m.num, o) then 0 else 1)
    ensures Counts(t)
  {
    assert t.procs.Keys == s.procs.Keys;
    forall x | x in t.meta ensures CountOk(x, t.meta[x], t.names, t.live, t.procs.Keys) {
      assert CountOk(x, s.meta[x], s.names, s.live, s.procs.Keys);
    }
  }

  lemma FinishNames(s: State, t: State, p: Proc, o: Obj, m: Meta)
    requires Finishes(s, t, p, o, m) && Names(s)
    ensures Names(t)
  {
    forall n | n in t.names ensures NameOk(t, n) {
      assert NameOk(s, n);
    }
  }

  lemma FinishRest(s: State, t: State, p: Proc, o: Obj, m: Meta)
    requires Finishes(s, t, p, o, m) && Places(s) && Tables(s) && Held(s) && ListOk(s)
    ensures Places(t) && Tables(t) && Held(t) && ListOk(t)
  {
    hide Places, Tables, Held, ListOk, Place, EntryOk, HeldOk;
    FinishPlace(s, t, p, o, m);
    PlacesKeep(s, t, p, {o});
    FinishEntries(s, t, p, o, m);
    TablesKeep(s, t, p, {o});
    HeldKeep(s, t, p, {o});
    ListSame(s, t);
  }

  lemma FinishPlace(s: State, t: State, p: Proc, o: Obj, m: Meta)
    requires Finishes(s, t, p, o, m) && Places(s)
    ensures Place(t, o)
  {
    assert Place(s, o);
  }

  lemma FinishEntries(s: State, t: State, p: Proc, o: Obj, m: Meta)
    requires Finishes(s, t, p, o, m) && Tables(s) && Held(s)
    ensures forall n :: n in t.procs[p].table ==> EntryOk(t.meta, p, n, t.procs[p].table[n])
    ensures forall x :: x in s.meta && x in t.meta ==> HeldOk(x, t.meta[x], p, t.procs[p])
  {
    forall n | n in t.procs[p].table ensures EntryOk(t.meta, p, n, t.procs[p].table[n]) {
      GetEntry(s, p, n);
    }
    forall x | x in s.meta && x in t.meta ensures HeldOk(x, t.meta[x], p, t.procs[p]) {
      GetHeld(s, p, x);
    }
  }

  // The name removed still denotes this segment, not a later one.
  lemma UnlinkKeeps(s: State, p: Proc, o: Obj)
    requires Inv(s) && p in s.procs && s.procs[p].pc == Finishing(o, Unlink) && o in s.meta
    ensures NamedAs(s.names, s.meta[o].num, o)
    ensures Inv(FinishStep(s, p, o, Unlink))
  {
    hide Names, Counts, Places, Procs, Tables, Held, LedgerOk, ListOk, ProcOk;
    var t := FinishStep(s, p, o, Unlink);
    FinishFacts(s, p, o, Unlink);
    GetSegment(s, o);
    assert NamedAs(s.names, s.meta[o].num, o);
    var m := s.meta[o].(unlinks := s.meta[o].unlinks + 1);
    assert Finishes(s, t, p, o, m);
    UnlinkSelf(s, t, p, o, m);
    FinishProcs(s, t, p, o, m);
    FinishCounts(s, t, p, o, m);
    FinishNames(s, t, p, o, m);
    FinishRest(s, t, p, o, m);
    FinishLedger(s, t, p, o, m);
    FinishLock(s, t, p, o, m);
  }

  lemma UnlinkSelf(s: State, t: State, p: Proc, o: Obj, m: Meta)
    requires Finishes(s, t, p, o, m) && t.procs[p].pc == Finishing(o, Post) && t.live == s.live
    requires FinishOk(p, o, s.meta[o], s.procs[p].pc.f, s.names, s.live) && m.num !in t.names
    ensures ProcOk(t, p, t.procs[p].pc, t.procs[p].table)
  {}

  lemma FinishLock(s: State, t: State, p: Proc, o: Obj, m: Meta)
    requires Finishes(s, t, p, o, m) && LockOk(s)
    ensures LockOk(t)
  {
    assert t.procs.Keys == s.procs.Keys;
  }

  lemma FinishLedger(s: State, t: State, p: Proc, o: Obj, m: Meta)
    requires Finishes(s, t, p, o, m) && LedgerOk(s)
    requires if t.live == s.live then t.total == s.total else o in s.live && t.total == s.total - s.live[o]
    ensures LedgerOk(t)
  {
    if t.live != s.live {
      SumDrop(s.live, o);
    }
  }

  lemma PostKeeps(s: State, p: Proc, o: Obj)
    requires Inv(s) && p in s.procs && s.procs[p].pc == Finishing(o, Post) && o in s.meta
    ensures Inv(FinishStep(s, p, o, Post))
  {
    hide Names, Counts, Places, Procs, Tables, Held, LedgerOk, ListOk, ProcOk;
    var t := FinishStep(s, p, o, Post);
    FinishFacts(s, p, o, Post);
    GetSegment(s, o);
    var m := s.meta[o].(ctr := s.meta[o].ctr.(post := true));
    assert Finishes(s, t, p, o, m);
    PostSelf(s, t, p, o, m);
    FinishProcs(s, t, p, o, m);
    FinishCounts(s, t, p, o, m);
    FinishNames(s, t, p, o, m);
    FinishRest(s, t, p, o, m);
    FinishLedger(s, t, p, o, m);
    FinishLock(s, t, p, o, m);
  }

  lemma PostSelf(s: State, t: State, p: Proc, o: Obj, m: Meta)
    requires Finishes(s, t, p, o, m) && t.procs[p].pc == Finishing(o, Refund) && t.live == s.live && t.names == s.names
    requires s.procs[p].pc.f == Post && FinishOk(p, o, s.meta[o], Post, s.names, s.live)
    ensures ProcOk(t, p, t.procs[p].pc, t.procs[p].table)
  {}

  lemma RefundKeeps(s: State, p: Proc, o: Obj)
    requires Inv(s) && p in s.procs && s.procs[p].pc == Finishing(o, Refund) && o in s.meta
    ensures Inv(FinishStep(s, p, o, Refund))
  {
    hide Names, Counts, Places, Procs, Tables, Held, LedgerOk, ListOk, ProcOk;
    var t := FinishStep(s, p, o, Refund);
    FinishFacts(s, p, o, Refund);
    GetSegment(s, o);
    var m := s.meta[o];
    assert t.meta == s.meta[o := m];
    assert Finishes(s, t, p, o, m);
    IdleOk(t, p, t.procs[p].table);
    FinishProcs(s, t, p, o, m);
    FinishCounts(s, t, p, o, m);
    FinishNames(s, t, p, o, m);
    FinishRest(s, t, p, o, m);
    FinishLedger(s, t, p, o, m);
    FinishLock(s, t, p, o, m);
  }
}
