/** Steps that change only the acting process, the lock or the stored length. */
module SegmentMoves {
  import opened SegmentModel
  import opened SegmentInvariant
  import opened SegmentFrames

  ghost predicate SameShared(s: State, t: State) {
    && SameLists(s, t) && t.names == s.names && t.meta == s.meta
    && t.total == s.total && t.maxSize == s.maxSize && t.live == s.live && t.creator == s.creator && t.nextObj == s.nextObj
  }

  predicate SameRole(h: Pc, h': Pc) {
    h' == h || (Focus(h, {}) && Focus(h', {}))
  }

  // The acting process keeps its table and what it counts in.
  ghost predicate Moved(s: State, t: State, p: Proc) {
    && p in s.procs && p in t.procs && t.procs == s.procs[p := t.procs[p]]
    && t.procs[p].table == s.procs[p].table
    && Holds(t.procs[p].pc) == Holds(s.procs[p].pc)
    && !s.procs[p].pc.Building? && !t.procs[p].pc.Building?
  }

  lemma MoveKeeps(s: State, t: State, p: Proc)
    requires Inv(s) && SameShared(s, t) && Moved(s, t, p) && LockOk(t)
    requires t.owner == s.owner || OthersFree(s, p)
    requires ProcOk(t, p, t.procs[p].pc, t.procs[p].table)
    requires SameRole(Holder(s.owner, s.procs), Holder(t.owner, t.procs))
    requires t.numShared == |t.bchain| + Ahead(Holder(t.owner, t.procs))
    ensures Inv(t)
  {
    hide Names, Counts, Places, Procs, Tables, Held, ProcOk, HeldOk, EntryOk, ListOk, LedgerOk, Place;
    NamesKeep(s, t, p, {});
    CountsKeep(s, t, p, {});
    PlacesKeep(s, t, p, {});
    ProcsKeep(s, t, p, {});
    forall n | n in t.procs[p].table ensures EntryOk(t.meta, p, n, t.procs[p].table[n]) {
      GetEntry(s, p, n);
    }
    TablesKeep(s, t, p, {});
    forall o | o in s.meta ensures HeldOk(o, t.meta[o], p, t.procs[p]) {
      GetHeld(s, p, o);
      HeldMove(o, s.meta[o], p, s.procs[p], t.procs[p]);
    }
    HeldKeep(s, t, p, {});
    ListMove(s, t);
    LedgerMove(s, t);
  }

  lemma ListMove(s: State, t: State)
    requires ListOk(s) && SameLists(s, t) && t.meta == s.meta
    requires SameRole(Holder(s.owner, s.procs), Holder(t.owner, t.procs))
    requires t.numShared == |t.bchain| + Ahead(Holder(t.owner, t.procs))
    ensures ListOk(t)
  {}

  lemma LedgerMove(s: State, t: State)
    requires LedgerOk(s) && SameShared(s, t)
    ensures LedgerOk(t)
  {}

  lemma HeldMove(o: Obj, m: Meta, p: Proc, x: Process, y: Process)
    requires HeldOk(o, m, p, x) && y.table == x.table && Holds(y.pc) == Holds(x.pc)
    ensures HeldOk(o, m, p, y)
  {}
}
