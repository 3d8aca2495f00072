/** What a step leaves alone.  A step of process `p` rewrites the segments of a
    small set `d`, the state of `p`, and little else; each lemma here carries
    one part of the invariant over such a step. */
module SegmentFrames {
  import opened Options
  import opened SegmentModel
  import opened SegmentInvariant

  ghost predicate Framed(s: State, t: State, p: Proc, d: set<Obj>) {
    && p in s.procs && p in t.procs && t.procs == s.procs[p := t.procs[p]]
    && t.meta.Keys == s.meta.Keys
    && (forall o :: o in s.meta ==> t.meta[o].num == s.meta[o].num && t.meta[o].size == s.meta[o].size)
    && (forall o :: o in s.meta && o !in d ==> t.meta[o] == s.meta[o])
    && t.creator == s.creator && t.nextObj == s.nextObj && t.maxSize == s.maxSize
  }

  ghost predicate SameLists(s: State, t: State) {
    t.first == s.first && t.last == s.last && t.fchain == s.fchain && t.bchain == s.bchain
  }

  // The lists differ by segments of `d` only.
  ghost predicate ListsWithin(s: State, t: State, d: set<Obj>) {
    forall o :: o !in d ==> (o in t.fchain <==> o in s.fchain) && (o in t.bchain <==> o in s.bchain)
  }

  // Only `p` enters or leaves a segment.
  ghost predicate OnlyCounts(s: State, t: State, p: Proc) {
    forall o, q :: o in s.meta && o in t.meta && q != p ==> (q in t.meta[o].trackers <==> q in s.meta[o].trackers)
  }

  ghost predicate OthersFree(s: State, p: Proc) {
    forall q :: q in s.procs && q != p ==> !Critical(s.procs[q].pc)
  }

  // A holder's state that asks nothing special of segments outside `d`.
  predicate Focus(h: Pc, d: set<Obj>) {
    match h
    case Adding(o, a) => o in d || !(a == AddPrev || a == AddValid || a == AddLast)
    case Removing(o, m, _) => o in d || !(m == RemFixPrev || m == RemFixNext || m == RemReset)
    case _ => true
  }

  // ----- the parts the invariant is made of -----

  lemma GetProc(s: State, p: Proc)
    requires Procs(s) && p in s.procs
    ensures ProcOk(s, p, s.procs[p].pc, s.procs[p].table)
  {}

  lemma GetSegment(s: State, o: Obj)
    requires Counts(s) && Places(s) && o in s.meta
    ensures CountOk(o, s.meta[o], s.names, s.live, s.procs.Keys) && Place(s, o)
  {}

  lemma GetHeld(s: State, p: Proc, o: Obj)
    requires Held(s) && p in s.procs && o in s.meta
    ensures HeldOk(o, s.meta[o], p, s.procs[p])
  {}

  lemma GetEntry(s: State, p: Proc, n: int)
    requires Tables(s) && p in s.procs && n in s.procs[p].table
    ensures EntryOk(s.meta, p, n, s.procs[p].table[n])
  {}

  lemma HolderFree(s: State, p: Proc)
    requires Procs(s) && s.owner == Some(p)
    ensures OthersFree(s, p)
  {
    forall q | q in s.procs && q != p ensures !Critical(s.procs[q].pc) {
      GetProc(s, q);
    }
  }

  // ----- carrying the parts over -----

  lemma NamesKeep(s: State, t: State, p: Proc, d: set<Obj>)
    requires Names(s) && Framed(s, t, p, d) && t.names == s.names
    ensures Names(t)
  {
    forall n | n in t.names ensures NameOk(t, n) {
      assert NameOk(s, n);
    }
  }

  lemma CountsKeep(s: State, t: State, p: Proc, d: set<Obj>)
    requires Counts(s) && Framed(s, t, p, d) && t.names == s.names && t.live == s.live
    requires forall o :: o in d && o in t.meta ==> CountOk(o, t.meta[o], t.names, t.live, t.procs.Keys)
    ensures Counts(t)
  {
    assert t.procs.Keys == s.procs.Keys;
  }

  lemma PlaceFrame(s: State, t: State, p: Proc, d: set<Obj>, o: Obj)
    requires o in s.meta && o in t.meta && o !in d && t.meta[o] == s.meta[o] && Place(s, o)
    requires Framed(s, t, p, d)
    requires (o in t.fchain <==> o in s.fchain) && (o in t.bchain <==> o in s.bchain)
    requires (Focus(Holder(s.owner, s.procs), d) && Focus(Holder(t.owner, t.procs), d)) || Holder(s.owner, s.procs) == Holder(t.owner, t.procs)
    requires s.procs[p].pc.Building? ==> s.procs[p].pc.o in d
    requires t.procs[p].pc.Building? ==> t.procs[p].pc.o in d
    ensures Place(t, o)
  {
  }

  lemma PlacesKeep(s: State, t: State, p: Proc, d: set<Obj>)
    requires Places(s) && Framed(s, t, p, d) && ListsWithin(s, t, d)
    requires (Focus(Holder(s.owner, s.procs), d) && Focus(Holder(t.owner, t.procs), d)) || Holder(s.owner, s.procs) == Holder(t.owner, t.procs)
    requires s.procs[p].pc.Building? ==> s.procs[p].pc.o in d
    requires t.procs[p].pc.Building? ==> t.procs[p].pc.o in d
    requires forall o :: o in d && o in t.meta ==> Place(t, o)
    ensures Places(t)
  {
    hide Place;
    forall o | o in t.meta && o !in d ensures Place(t, o) {
      PlaceFrame(s, t, p, d, o);
    }
  }

  lemma ProcFrame(s: State, t: State, p: Proc, d: set<Obj>, q: Proc, x: Process)
    requires ProcOk(s, q, x.pc, x.table) && Framed(s, t, p, d) && t.names == s.names && t.live == s.live
    requires t.owner == s.owner || !Critical(x.pc)
    requires SameLists(s, t) || (ListsWithin(s, t, d) && !Critical(x.pc))
    requires PcObjs(x.pc) !! d
    ensures ProcOk(t, q, x.pc, x.table)
  {
  }

  lemma ProcsKeep(s: State, t: State, p: Proc, d: set<Obj>)
    requires Procs(s) && Framed(s, t, p, d) && t.names == s.names && t.live == s.live
    requires t.owner == s.owner || OthersFree(s, p)
    requires SameLists(s, t) || (ListsWithin(s, t, d) && OthersFree(s, p))
    requires ProcOk(t, p, t.procs[p].pc, t.procs[p].table)
    requires forall q :: q in s.procs && q != p && !(PcObjs(s.procs[q].pc) !! d) ==> ProcOk(t, q, s.procs[q].pc, s.procs[q].table)
    ensures Procs(t)
  {
    hide ProcOk;
    forall q | q in t.procs ensures ProcOk(t, q, t.procs[q].pc, t.procs[q].table) {
      if q != p && PcObjs(s.procs[q].pc) !! d {
        ProcFrame(s, t, p, d, q, s.procs[q]);
      }
    }
  }

  lemma TablesKeep(s: State, t: State, p: Proc, d: set<Obj>)
    requires Tables(s) && Framed(s, t, p, d) && OnlyCounts(s, t, p)
    requires forall n :: n in t.procs[p].table ==> EntryOk(t.meta, p, n, t.procs[p].table[n])
    ensures Tables(t)
  {
    forall q, n | q in t.procs && n in t.procs[q].table ensures EntryOk(t.meta, q, n, t.procs[q].table[n]) {
      if q != p {
        GetEntry(s, q, n);
      }
    }
  }

  lemma HeldKeep(s: State, t: State, p: Proc, d: set<Obj>)
    requires Held(s) && Framed(s, t, p, d) && OnlyCounts(s, t, p)
    requires forall o :: o in s.meta && o in t.meta ==> HeldOk(o, t.meta[o], p, t.procs[p])
    ensures Held(t)
  {
    forall q, o | q in t.procs && o in t.meta ensures HeldOk(o, t.meta[o], q, t.procs[q]) {
      if q != p {
        GetHeld(s, q, o);
      }
    }
  }

  // The links of listed segments are untouched.
  ghost predicate SameLinks(s: State, t: State) {
    && (forall o :: o in s.fchain && o in s.meta && o in t.meta ==> t.meta[o].next == s.meta[o].next)
    && (forall o :: o in s.bchain && o in s.meta && o in t.meta ==> t.meta[o].prev == s.meta[o].prev)
  }

  lemma ForwardFrame(first: int, m: map<Obj, Meta>, m': map<Obj, Meta>, c: seq<Obj>)
    requires Forward(first, m, c)
    requires forall i :: 0 <= i < |c| ==> c[i] in m' && m'[c[i]].num == m[c[i]].num && m'[c[i]].next == m[c[i]].next
    ensures Forward(first, m', c)
  {
  }

  lemma BackwardFrame(last: int, m: map<Obj, Meta>, m': map<Obj, Meta>, c: seq<Obj>)
    requires Backward(last, m, c)
    requires forall i :: 0 <= i < |c| ==> c[i] in m' && m'[c[i]].num == m[c[i]].num && m'[c[i]].prev == m[c[i]].prev
    ensures Backward(last, m', c)
  {
  }

  lemma LinksKeep(s: State, t: State, p: Proc, d: set<Obj>)
    requires ListOk(s) && Framed(s, t, p, d) && SameLists(s, t) && SameLinks(s, t)
    ensures NoDup(t.fchain) && NoDup(t.bchain) && Forward(t.first, t.meta, t.fchain) && Backward(t.last, t.meta, t.bchain)
  {
    forall i | 0 <= i < |s.fchain| ensures s.fchain[i] in t.meta && t.meta[s.fchain[i]].next == s.meta[s.fchain[i]].next {
      assert s.fchain[i] in s.fchain && s.fchain[i] in s.meta.Keys;
    }
    forall i | 0 <= i < |s.bchain| ensures s.bchain[i] in t.meta && t.meta[s.bchain[i]].prev == s.meta[s.bchain[i]].prev {
      assert s.bchain[i] in s.bchain && s.bchain[i] in s.meta.Keys;
    }
    ForwardFrame(s.first, s.meta, t.meta, s.fchain);
    BackwardFrame(s.last, s.meta, t.meta, s.bchain);
  }

  lemma ListKeep(s: State, t: State, p: Proc, d: set<Obj>)
    requires ListOk(s) && Framed(s, t, p, d) && SameLists(s, t) && SameLinks(s, t)
    requires !HalfRemoved(Holder(t.owner, t.procs))
    requires ChainsAgree(Holder(t.owner, t.procs), t.fchain, t.bchain)
    requires t.numShared == |t.bchain| + Ahead(Holder(t.owner, t.procs))
    ensures ListOk(t)
  {
    LinksKeep(s, t, p, d);
  }

  // Listed segments keep their numbers and links.
  ghost predicate SameListed(s: State, t: State) {
    forall o :: (o in s.fchain || o in s.bchain) && o in s.meta ==>
      o in t.meta && t.meta[o].num == s.meta[o].num && t.meta[o].next == s.meta[o].next && t.meta[o].prev == s.meta[o].prev
  }

  predicate SameList(h: Pc, h': Pc) {
    h' == h || (Focus(h, {}) && Focus(h', {}) && Ahead(h') == Ahead(h))
  }

  // Nothing the list depends on has changed, nor has what the holder is doing.
  lemma ListSame(s: State, t: State)
    requires ListOk(s) && SameLists(s, t) && t.numShared == s.numShared && SameListed(s, t)
    requires SameList(Holder(s.owner, s.procs), Holder(t.owner, t.procs))
    ensures ListOk(t)
  {
    ListedFrame(s, t);
    ForwardFrame(s.first, s.meta, t.meta, s.fchain);
    BackwardFrame(s.last, s.meta, t.meta, s.bchain);
    CutFrame(Holder(s.owner, s.procs), Holder(t.owner, t.procs), s.meta, t.meta, s.fchain, s.bchain);
  }

  lemma ListedFrame(s: State, t: State)
    requires SameListed(s, t) && Forward(s.first, s.meta, s.fchain) && Backward(s.last, s.meta, s.bchain)
    ensures forall i :: 0 <= i < |s.fchain| ==> s.fchain[i] in t.meta && t.meta[s.fchain[i]].num == s.meta[s.fchain[i]].num && t.meta[s.fchain[i]].next == s.meta[s.fchain[i]].next
    ensures forall i :: 0 <= i < |s.bchain| ==> s.bchain[i] in t.meta && t.meta[s.bchain[i]].num == s.meta[s.bchain[i]].num && t.meta[s.bchain[i]].prev == s.meta[s.bchain[i]].prev && t.meta[s.bchain[i]].next == s.meta[s.bchain[i]].next
  {
    forall i | 0 <= i < |s.fchain| ensures s.fchain[i] in s.fchain {}
    forall i | 0 <= i < |s.bchain| ensures s.bchain[i] in s.bchain {}
  }

  lemma CutFrame(h: Pc, h': Pc, m: map<Obj, Meta>, m': map<Obj, Meta>, fchain: seq<Obj>, bchain: seq<Obj>)
    requires ChainsAgree(h, fchain, bchain) && CutOk(h, m, bchain) && SameList(h, h')
    requires forall i :: 0 <= i < |bchain| ==> bchain[i] in m && bchain[i] in m' && m'[bchain[i]].num == m[bchain[i]].num && m'[bchain[i]].next == m[bchain[i]].next
    ensures ChainsAgree(h', fchain, bchain) && CutOk(h', m', bchain)
  {}

  // ----- a step that keeps names and reserved sizes -----

  ghost predicate LocalOk(s: State, t: State, p: Proc, d: set<Obj>) {
    && p in t.procs
    && (forall o :: o in d && o in t.meta ==> CountOk(o, t.meta[o], t.names, t.live, t.procs.Keys) && Place(t, o))
    && ProcOk(t, p, t.procs[p].pc, t.procs[p].table)
    && (forall q :: q in s.procs && q != p && !(PcObjs(s.procs[q].pc) !! d) ==> ProcOk(t, q, s.procs[q].pc, s.procs[q].table))
    && (forall n :: n in t.procs[p].table ==> EntryOk(t.meta, p, n, t.procs[p].table[n]))
    && (forall o :: o in s.meta && o in t.meta ==> HeldOk(o, t.meta[o], p, t.procs[p]))
  }

  ghost predicate RolesWithin(s: State, t: State, p: Proc, d: set<Obj>) {
    && p in s.procs && p in t.procs
    && (Holder(s.owner, s.procs) == Holder(t.owner, t.procs) || (Focus(Holder(s.owner, s.procs), d) && Focus(Holder(t.owner, t.procs), d)))
    && (s.procs[p].pc.Building? ==> s.procs[p].pc.o in d)
    && (t.procs[p].pc.Building? ==> t.procs[p].pc.o in d)
  }

  lemma FrameKeeps(s: State, t: State, p: Proc, d: set<Obj>)
    requires Inv(s) && Framed(s, t, p, d)
    requires t.names == s.names && t.live == s.live && t.total == s.total
    requires t.owner == s.owner && t.level == s.level
    requires SameLists(s, t) || (ListsWithin(s, t, d) && OthersFree(s, p))
    requires OnlyCounts(s, t, p) && RolesWithin(s, t, p, d)
    requires LocalOk(s, t, p, d) && ListOk(t)
    ensures Inv(t)
  {
    hide Names, Counts, Places, Procs, Tables, Held, ListOk, ProcOk, HeldOk, EntryOk, Place, CountOk, Focus, Base;
    NamesKeep(s, t, p, d);
    CountsKeep(s, t, p, d);
    PlacesKeep(s, t, p, d);
    ProcsKeep(s, t, p, d);
    TablesKeep(s, t, p, d);
    HeldKeep(s, t, p, d);
    assert t.procs.Keys == s.procs.Keys;
  }
}
