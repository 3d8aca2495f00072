/** Steps that enter or leave a segment: counting, tracking and the final
    compare-and-swap. */
module SegmentCountSteps {
  import opened Counters
  import opened Options
  import opened SegmentModel
  import opened SegmentInvariant
  import opened SegmentFrames
  import opened SegmentLists
  import opened SegmentTestSteps

  // ----- entering a listed segment -----

  lemma OpenCountKeeps(s: State, p: Proc, q: Obj, w: OpenCaller)
    requires Inv(s) && p in s.procs && s.procs[p].pc == Opening(q, OpenCount, w) && q in s.meta
    ensures Inv(Goto(Write(s, q, Entered(s.meta[q], p)), p, Opening(q, OpenCheck, w)))
  {
    hide Names, Counts, Places, Procs, Tables, Held, LedgerOk, ListOk, CountOk, Place, ProcOk, HeldOk, EntryOk;
    var t := Goto(Write(s, q, Entered(s.meta[q], p)), p, Opening(q, OpenCheck, w));
    GetProc(s, p);
    GetSegment(s, q);
    GetHeld(s, p, q);
    NotCounted(s, p, q, w);
    OpensListed(s, p, q, w);
    ListedNamed(s, q);
    EnterSegment(s, t, p, q);
    EnterPlace(s, t, p, q);
    OpenCountSelf(s, t, p, q, w);
    EnterOthers(s, t, p, q);
    EnterTables(s, t, p, q);
    forall o | o in s.meta && o in t.meta ensures HeldOk(o, t.meta[o], p, t.procs[p]) {
      GetHeld(s, p, o);
      OpenCountHeld(s, t, p, q, w, o);
    }
    ListSame(s, t);
    FrameKeeps(s, t, p, {q});
  }

  // A process does not count in a listed segment that it neither tracks nor
  // is working on.
  lemma NotCounted(s: State, p: Proc, q: Obj, w: OpenCaller)
    requires q in s.meta && p in s.procs && s.procs[p].pc == Opening(q, OpenCount, w)
    requires ProcOk(s, p, s.procs[p].pc, s.procs[p].table) && HeldOk(q, s.meta[q], p, s.procs[p])
    ensures p !in s.meta[q].trackers
  {}

  lemma OpensListed(s: State, p: Proc, q: Obj, w: OpenCaller)
    requires q in s.meta && p in s.procs && s.procs[p].pc == Opening(q, OpenCount, w)
    requires ProcOk(s, p, s.procs[p].pc, s.procs[p].table)
    ensures q in s.fchain && s.owner == Some(p)
  {}

  lemma EnterSegment(s: State, t: State, p: Proc, q: Obj)
    requires q in s.meta && p in s.procs && p !in s.meta[q].trackers
    requires t.meta == s.meta[q := Entered(s.meta[q], p)] && t.procs.Keys == s.procs.Keys && t.names == s.names && t.live == s.live
    requires CountOk(q, s.meta[q], s.names, s.live, s.procs.Keys) && LockOk(s)
    requires !s.meta[q].ctr.flag
    ensures CountOk(q, t.meta[q], t.names, t.live, t.procs.Keys)
  {
    var m := s.meta[q];
    SubsetSize(m.trackers + {p}, s.procs.Keys);
    assert |m.trackers + {p}| == |m.trackers| + 1;
    assert Up(m.ctr).count == m.ctr.count + 1;
  }

  // Process `p` is counted in segment `q`; all else but its own state stays.
  ghost predicate Enters(s: State, t: State, p: Proc, q: Obj) {
    && q in s.meta && p in s.procs && p in t.procs
    && t.meta == s.meta[q := Entered(s.meta[q], p)]
    && t.procs == s.procs[p := t.procs[p]]
    && SameLists(s, t) && t.names == s.names && t.live == s.live && t.creator == s.creator && t.owner == s.owner
  }

  lemma EnterPlace(s: State, t: State, p: Proc, q: Obj)
    requires Enters(s, t, p, q) && Place(s, q)
    requires Base(t.procs[p].pc) == Base(s.procs[p].pc) && !s.procs[p].pc.Building? && !t.procs[p].pc.Building?
    ensures Place(t, q)
  {}

  lemma OpenCountSelf(s: State, t: State, p: Proc, q: Obj, w: OpenCaller)
    requires Enters(s, t, p, q)
    requires s.procs[p].pc == Opening(q, OpenCount, w) && ProcOk(s, p, s.procs[p].pc, s.procs[p].table)
    ensures ProcOk(t, p, Opening(q, OpenCheck, w), s.procs[p].table)
  {}

  // Another process that refers to a listed segment is not harmed: it is not
  // building or adding it, and only counts, reads or flags of its own matter.
  lemma EnterOther(s: State, t: State, p: Proc, q: Obj, p': Proc, x: Process)
    requires Enters(s, t, p, q) && p' != p && ProcOk(s, p', x.pc, x.table)
    requires q in s.fchain && !s.meta[q].ctr.flag && s.owner == Some(p)
    ensures ProcOk(t, p', x.pc, x.table)
  {}

  lemma EnterOthers(s: State, t: State, p: Proc, q: Obj)
    requires Enters(s, t, p, q) && Procs(s) && q in s.fchain && !s.meta[q].ctr.flag && s.owner == Some(p)
    ensures forall p' :: p' in s.procs && p' != p ==> ProcOk(t, p', s.procs[p'].pc, s.procs[p'].table)
  {
    hide ProcOk;
    forall p' | p' in s.procs && p' != p ensures ProcOk(t, p', s.procs[p'].pc, s.procs[p'].table) {
      GetProc(s, p');
      EnterOther(s, t, p, q, p', s.procs[p']);
    }
  }

  lemma EnterTables(s: State, t: State, p: Proc, q: Obj)
    requires Enters(s, t, p, q) && Tables(s) && t.procs[p].table == s.procs[p].table
    ensures forall n :: n in t.procs[p].table ==> EntryOk(t.meta, p, n, t.procs[p].table[n])
  {
    forall n | n in t.procs[p].table ensures EntryOk(t.meta, p, n, t.procs[p].table[n]) {
      GetEntry(s, p, n);
    }
  }

  lemma OpenCountHeld(s: State, t: State, p: Proc, q: Obj, w: OpenCaller, o: Obj)
    requires Enters(s, t, p, q) && o in s.meta && HeldOk(o, s.meta[o], p, s.procs[p])
    requires s.procs[p].pc == Opening(q, OpenCount, w) && t.procs[p] == Process(Opening(q, OpenCheck, w), s.procs[p].table)
    ensures HeldOk(o, t.meta[o], p, t.procs[p])
  {}

  // ----- recording an opened segment -----

  lemma OpenTrackKeeps(s: State, p: Proc, q: Obj, w: OpenCaller)
    requires Inv(s) && p in s.procs && s.procs[p].pc == Opening(q, OpenTrack, w) && q in s.meta
    ensures Inv(Track(s, p, s.meta[q].num, q, Resume(w)))
  {
    hide Names, Counts, Places, Procs, Tables, Held, LedgerOk, ListOk, CountOk, Place, ProcOk, HeldOk, EntryOk;
    var t := Track(s, p, s.meta[q].num, q, Resume(w));
    GetProc(s, p);
    OpenTrackApart(s, p, q, w);
    OpenTrackSelf(s, t, p, q, w);
    forall n | n in t.procs[p].table ensures EntryOk(t.meta, p, n, t.procs[p].table[n]) {
      if n in s.procs[p].table { GetEntry(s, p, n); }
      OpenTrackEntry(s, t, p, q, w, n);
    }
    forall o | o in s.meta && o in t.meta ensures HeldOk(o, t.meta[o], p, t.procs[p]) {
      GetHeld(s, p, o);
      OpenTrackHeld(s, t, p, q, w, o);
    }
    OpenTrackBase(w);
    ListSame(s, t);
    FrameKeeps(s, t, p, {});
  }

  lemma OpenTrackBase(w: OpenCaller)
    ensures Base(Resume(w)) == Resume(w) && !Resume(w).Building? && !Resume(w).Opening?
  {}

  // The segment just opened and the one its caller works on are both listed,
  // so they carry different numbers.
  lemma OpenTrackApart(s: State, p: Proc, q: Obj, w: OpenCaller)
    requires Inv(s) && p in s.procs && s.procs[p].pc == Opening(q, OpenTrack, w) && q in s.meta
    ensures Resume(w).Removing? ==> Resume(w).o in s.meta && s.meta[Resume(w).o].num != s.meta[q].num
  {
    hide Names, Counts, Places, Procs, Tables, Held, LedgerOk;
    GetProc(s, p);
    if Resume(w).Removing? {
      var o := Resume(w).o;
      assert o in s.bchain;
      if s.meta[o].num == s.meta[q].num {
        ListedDistinct(s, o, q);
      }
    }
  }

  ghost predicate Tracks(s: State, t: State, p: Proc, q: Obj, pc: Pc) {
    q in s.meta && p in s.procs && t == Track(s, p, s.meta[q].num, q, pc)
  }

  lemma OpenTrackSelf(s: State, t: State, p: Proc, q: Obj, w: OpenCaller)
    requires Tracks(s, t, p, q, Resume(w))
    requires s.procs[p].pc == Opening(q, OpenTrack, w) && ProcOk(s, p, s.procs[p].pc, s.procs[p].table)
    requires Resume(w).Removing? ==> Resume(w).o in s.meta && s.meta[Resume(w).o].num != s.meta[q].num
    ensures ProcOk(t, p, t.procs[p].pc, t.procs[p].table)
  {}

  lemma OpenTrackEntry(s: State, t: State, p: Proc, q: Obj, w: OpenCaller, n: int)
    requires Tracks(s, t, p, q, Resume(w))
    requires s.procs[p].pc == Opening(q, OpenTrack, w) && ProcOk(s, p, s.procs[p].pc, s.procs[p].table)
    requires n in t.procs[p].table && (n in s.procs[p].table ==> EntryOk(s.meta, p, n, s.procs[p].table[n]))
    ensures EntryOk(t.meta, p, n, t.procs[p].table[n])
  {}

  lemma OpenTrackHeld(s: State, t: State, p: Proc, q: Obj, w: OpenCaller, o: Obj)
    requires Tracks(s, t, p, q, Resume(w)) && o in s.meta && HeldOk(o, s.meta[o], p, s.procs[p])
    requires s.procs[p].pc == Opening(q, OpenTrack, w) && ProcOk(s, p, s.procs[p].pc, s.procs[p].table)
    ensures HeldOk(o, t.meta[o], p, t.procs[p])
  {}
}
