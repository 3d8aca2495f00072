/** The inductive invariant of the shared-segment protocol: what holds of each
    segment, of each process, and of the list. */
module SegmentInvariant {
  import opened Counters
  import opened Options
  import opened SegmentModel
  import opened Sums

  // ----- the list -----

  ghost predicate NoDup(c: seq<Obj>) {
    forall i, j :: 0 <= i < j < |c| ==> c[i] != c[j]
  }

  // Following `next` from `first` visits `c`.
  ghost predicate Forward(first: int, meta: map<Obj, Meta>, c: seq<Obj>) {
    && (forall i :: 0 <= i < |c| ==> c[i] in meta)
    && first == (if |c| == 0 then NO_SEG else meta[c[0]].num)
    && (|c| > 0 ==> meta[c[|c| - 1]].next == NO_SEG)
    && (forall i :: 0 <= i < |c| - 1 ==> meta[c[i]].next == meta[c[i + 1]].num)
  }

  // Following `prev` from `last` visits `c` backwards.
  ghost predicate Backward(last: int, meta: map<Obj, Meta>, c: seq<Obj>) {
    && (forall i :: 0 <= i < |c| ==> c[i] in meta)
    && last == (if |c| == 0 then NO_SEG else meta[c[|c| - 1]].num)
    && (|c| > 0 ==> meta[c[0]].prev == NO_SEG)
    && (forall i :: 0 <= i < |c| - 1 ==> meta[c[i + 1]].prev == meta[c[i]].num)
  }

  // What the lock holder is doing, below any segment it is opening.
  function Holder(owner: Option<Proc>, procs: map<Proc, Process>): Pc {
    if owner.Some? && owner.value in procs then Base(procs[owner.value].pc) else Idle
  }

  predicate AtAdd(h: Pc, o: Obj, a: AddStage) {
    h == Adding(o, a)
  }

  predicate AtRem(h: Pc, o: Obj, m: RemStage) {
    h.Removing? && h.o == o && h.m == m
  }

  // The list as read forwards has gained the segment being added, the list as
  // read backwards has not.
  predicate HalfAdded(h: Pc) {
    h.Adding? && (h.a == AddPrev || h.a == AddValid || h.a == AddLast)
  }

  // The list as read forwards has lost the segment being removed, the list as
  // read backwards has not.
  predicate HalfRemoved(h: Pc) {
    h.Removing? && h.m == RemFixNext
  }

  ghost predicate ChainsAgree(h: Pc, fchain: seq<Obj>, bchain: seq<Obj>) {
    if HalfAdded(h) then fchain == bchain + [h.o] && h.o !in bchain
    else if HalfRemoved(h) then h.o in bchain && h.o !in fchain && fchain == Without(bchain, h.o)
    else fchain == bchain
  }

  // The forward link of the segment being removed still names its successor.
  ghost predicate CutOk(h: Pc, meta: map<Obj, Meta>, bchain: seq<Obj>) {
    HalfRemoved(h) ==>
      && h.o in meta
      && (forall i :: 0 <= i < |bchain| ==> bchain[i] in meta)
      && (|bchain| > 0 && bchain[|bchain| - 1] == h.o ==> meta[h.o].next == NO_SEG)
      && (forall i :: 0 <= i < |bchain| - 1 && bchain[i] == h.o ==> meta[h.o].next == meta[bchain[i + 1]].num)
  }

  // How far the stored length runs ahead of the list.
  function Ahead(h: Pc): int {
    match h
    case Adding(_, a) => if a == AddLink || a == AddPrev || a == AddValid || a == AddLast then 1 else 0
    case Removing(_, m, _) => if m == RemReset || m == RemCount then 1 else 0
    case _ => 0
  }

  ghost predicate ListOk(s: State) {
    var h := Holder(s.owner, s.procs);
    && NoDup(s.fchain) && NoDup(s.bchain)
    && Forward(s.first, s.meta, s.fchain)
    && Backward(s.last, s.meta, s.bchain)
    && ChainsAgree(h, s.fchain, s.bchain)
    && CutOk(h, s.meta, s.bchain)
    && s.numShared == |s.bchain| + Ahead(h)
  }

  // ----- segments -----

  predicate NamedAs(names: map<int, Obj>, n: int, o: Obj) {
    n in names && names[n] == o
  }

  // The count is the number of processes counted in; a flagged segment has
  // none left, was flagged once and is unlinked at most once; any other is
  // named and its size is reserved.
  ghost predicate CountOk(o: Obj, m: Meta, names: map<int, Obj>, live: map<Obj, nat>, procs: set<Proc>) {
    && m.trackers <= procs
    && m.ctr.count == |m.trackers|
    && (m.ctr.flag ==> m.trackers == {})
    && (!m.ctr.flag ==> NamedAs(names, m.num, o) && o in live)
    && (o in live ==> live[o] == m.size)
    && m.flips == (if m.ctr.flag then 1 else 0)
    && m.unlinks == (if NamedAs(names, m.num, o) then 0 else 1)
    && (m.ctr.flag <==> m.flagger.Some?)
  }

  // Still under construction: its creator has not yet reset the forward link.
  predicate RawBy(procs: map<Proc, Process>, creator: map<Obj, Proc>, o: Obj) {
    o in creator && creator[o] in procs && procs[creator[o]].pc.Building? && procs[creator[o]].pc.o == o
  }

  // ... or not yet marked, so `is_invalid` reads FALSE.
  predicate UnmarkedBy(procs: map<Proc, Process>, creator: map<Obj, Proc>, o: Obj) {
    RawBy(procs, creator, o) && (procs[creator[o]].pc.b == Zeroed || procs[creator[o]].pc.b == Counted)
  }

  // A listed segment is unflagged and counted in.  A segment is valid exactly
  // when it is listed, apart from the one the lock holder is adding or removing
  // and those not yet marked.  Outside the list the forward link is reset.
  ghost predicate PlaceOk(o: Obj, m: Meta, fchain: seq<Obj>, bchain: seq<Obj>, h: Pc, raw: bool, unmarked: bool) {
    && (o in fchain || o in bchain ==> !m.ctr.flag && m.trackers != {})
    && (!m.invalid ==> unmarked || (o in fchain && (o in bchain || AtAdd(h, o, AddLast))))
    && (m.invalid && o in fchain ==> AtAdd(h, o, AddPrev) || AtAdd(h, o, AddValid) || AtRem(h, o, RemFixPrev))
    && (m.invalid && o in bchain ==> AtRem(h, o, RemFixPrev) || AtRem(h, o, RemFixNext))
    && (o !in fchain ==> m.next == NO_SEG || AtRem(h, o, RemFixNext) || AtRem(h, o, RemReset) || raw)
  }

  // ----- processes -----

  predicate Critical(pc: Pc) {
    match pc
    case Adding(_, a) => a != AddLock
    case Removing(_, m, _) => m != RemPeek && m != RemLock
    case Resolving(_, _) => true
    case Opening(_, _, _) => true
    case _ => false
  }

  // Segments a process counts in although they are not in its table.
  function BaseHolds(pc: Pc): set<Obj> {
    match pc
    case Building(o, b) => if b == Zeroed then {} else {o}
    case Removing(o, _, r) => if r == Explicit then {} else {o}
    case Detaching(o) => {o}
    case Swapping(o, _, _) => {o}
    case _ => {}
  }

  function Holds(pc: Pc): set<Obj> {
    BaseHolds(Base(pc)) + (if pc.Opening? && pc.e != OpenCount then {pc.q} else {})
  }

  predicate InTable(table: map<int, Obj>, n: int, o: Obj) {
    n in table && table[n] == o
  }

  // A segment under construction belongs to its creator alone.
  ghost predicate BuildOk(p: Proc, o: Obj, m: Meta, b: BuildStage, fchain: seq<Obj>, bchain: seq<Obj>, creator: map<Obj, Proc>) {
    && o in creator && creator[o] == p
    && o !in fchain && o !in bchain && !m.ctr.flag
    && m.trackers == (if b == Zeroed then {} else {p})
    && (m.invalid <==> b == Marked || b == Unlisted)
    && (b == Unlisted ==> m.next == NO_SEG)
  }

  predicate Early(a: AddStage) {
    a == AddLock || a == AddCheck || a == AddLink
  }

  // A segment being added is counted in by one process until it is valid.
  ghost predicate AddOk(p: Proc, o: Obj, m: Meta, a: AddStage, table: map<int, Obj>, last: int, fchain: seq<Obj>, bchain: seq<Obj>) {
    && !m.ctr.flag && p in m.trackers
    && (Early(a) || a == AddPrev || a == AddValid ==> m.trackers == {p} && m.invalid && o !in bchain && InTable(table, m.num, o))
    && (Early(a) ==> o !in fchain && m.next == NO_SEG)
    && (a == AddLast ==> !m.invalid)
    && (a == AddValid || a == AddLast ==> m.prev == last)
  }

  predicate Cutting(m: RemStage) {
    m == RemFixPrev || m == RemFixNext || m == RemReset || m == RemCount || m == RemBump || m == RemUnlock
  }

  predicate Cut(m: RemStage) {
    m == RemReset || m == RemCount || m == RemBump
  }

  // A process removing a segment counts in it, and finds it listed when it has
  // seen it valid under the lock.
  ghost predicate RemOk(p: Proc, o: Obj, m: Meta, k: RemStage, r: RemoveCaller, table: map<int, Obj>, fchain: seq<Obj>, bchain: seq<Obj>) {
    && p in m.trackers
    && (r == Explicit ==> InTable(table, m.num, o))
    && (r != Explicit ==> m.num !in table && !r.seen.flag && r.seen.count == 1)
    && (k == RemMark ==> !m.invalid)
    && (k == RemFixPrev ==> o in fchain && o in bchain)
    && (Cutting(k) ==> m.invalid)
    && (Cut(k) ==> o !in fchain && o !in bchain)
  }

  // A process in the detach loop counts in the segment and has it in no table.
  ghost predicate DetachOk(p: Proc, m: Meta, table: map<int, Obj>) {
    p in m.trackers && m.num !in table
  }

  // The flag is about to be set exactly when the last count was read, and only
  // on a segment seen invalid.
  ghost predicate SwapOk(m: Meta, seen: Counter, flagging: bool) {
    && (flagging <==> !seen.flag && seen.count == 1)
    && (flagging ==> m.invalid)
  }

  // The process that flagged a segment unlinks that segment and no later one
  // of the same number.
  ghost predicate FinishOk(p: Proc, o: Obj, m: Meta, f: FinishStage, names: map<int, Obj>, live: map<Obj, nat>) {
    && m.ctr.flag && o in live && m.flagger == Some(p)
    && (f == Unlink <==> NamedAs(names, m.num, o))
  }

  ghost predicate BaseOk(s: State, p: Proc, b: Pc, table: map<int, Obj>) {
    match b
    case Fault => false
    case Reserving(k, _) => 0 <= k <= SEG_MAX
    case Choosing(o, k, size) => 0 <= k <= SEG_MAX && o !in s.meta && o in s.creator && s.creator[o] == p && o in s.live && s.live[o] == size
    case Building(o, st) => o in s.meta && BuildOk(p, o, s.meta[o], st, s.fchain, s.bchain, s.creator)
    case Adding(o, a) => o in s.meta && AddOk(p, o, s.meta[o], a, table, s.last, s.fchain, s.bchain)
    case Removing(o, k, r) => o in s.meta && RemOk(p, o, s.meta[o], k, r, table, s.fchain, s.bchain)
    case Detaching(o) => o in s.meta && DetachOk(p, s.meta[o], table)
    case Swapping(o, seen, flagging) => o in s.meta && DetachOk(p, s.meta[o], table) && SwapOk(s.meta[o], seen, flagging)
    case Finishing(o, f) => o in s.meta && FinishOk(p, o, s.meta[o], f, s.names, s.live)
    case _ => true
  }

  // Segments are opened under the lock, by the number of a listed segment that
  // the process does not track yet.
  ghost predicate OpenOk(s: State, p: Proc, pc: Pc, table: map<int, Obj>) {
    match pc
    case Resolving(n, w) =>
      n in s.names && s.names[n] in s.fchain && s.names[n] in s.bchain && n !in table && s.names[n] !in BaseObjs(Resume(w))
    case Opening(q, e, w) =>
      && q in s.meta && q in s.fchain && q in s.bchain && s.meta[q].num !in table && q !in BaseObjs(Resume(w))
      && e != OpenWait && (e != OpenCount ==> p in s.meta[q].trackers)
    case _ => true
  }

  ghost predicate ProcOk(s: State, p: Proc, pc: Pc, table: map<int, Obj>) {
    && (Critical(pc) ==> s.owner == Some(p))
    && BaseOk(s, p, Base(pc), table)
    && OpenOk(s, p, pc, table)
  }

  // A table entry denotes a segment of that number in which the process counts.
  ghost predicate EntryOk(meta: map<Obj, Meta>, p: Proc, n: int, o: Obj) {
    o in meta && meta[o].num == n && p in meta[o].trackers
  }

  // A process counts in the segments of its table and those it holds, only.
  ghost predicate HeldOk(o: Obj, m: Meta, p: Proc, x: Process) {
    p in m.trackers ==> InTable(x.table, m.num, o) || o in Holds(x.pc)
  }

  // ----- the whole -----

  ghost predicate NameOk(s: State, n: int) {
    n in s.names && s.names[n] in s.meta && s.meta[s.names[n]].num == n && 0 <= n <= SEG_MAX
  }

  // The shared total is the sum of the sizes reserved and not yet released.
  ghost predicate LedgerOk(s: State) {
    && s.total == Sum(s.live) && s.total <= s.maxSize
    && (forall o :: o in s.live ==> o < s.nextObj)
    && (forall o :: o in s.creator ==> o < s.nextObj)
    && (forall o :: o in s.meta ==> o < s.nextObj)
  }

  ghost predicate LockOk(s: State) {
    && (s.owner == None <==> s.level == 0)
    && (s.owner.Some? ==> s.owner.value in s.procs)
    && |s.procs.Keys| < COUNT_WRAP
  }

  ghost predicate Names(s: State) {
    forall n :: n in s.names ==> NameOk(s, n)
  }

  ghost predicate Counts(s: State) {
    forall o :: o in s.meta ==> CountOk(o, s.meta[o], s.names, s.live, s.procs.Keys)
  }

  ghost predicate Place(s: State, o: Obj)
    requires o in s.meta
  {
    PlaceOk(o, s.meta[o], s.fchain, s.bchain, Holder(s.owner, s.procs), RawBy(s.procs, s.creator, o), UnmarkedBy(s.procs, s.creator, o))
  }

  ghost predicate Places(s: State) {
    forall o :: o in s.meta ==> Place(s, o)
  }

  ghost predicate Procs(s: State) {
    forall p :: p in s.procs ==> ProcOk(s, p, s.procs[p].pc, s.procs[p].table)
  }

  ghost predicate Tables(s: State) {
    forall p, n :: p in s.procs && n in s.procs[p].table ==> EntryOk(s.meta, p, n, s.procs[p].table[n])
  }

  ghost predicate Held(s: State) {
    forall p, o :: p in s.procs && o in s.meta ==> HeldOk(o, s.meta[o], p, s.procs[p])
  }

  ghost predicate Inv(s: State) {
    LockOk(s) && Names(s) && Counts(s) && Places(s) && Procs(s) && Tables(s) && Held(s) && ListOk(s) && LedgerOk(s)
  }

  lemma InvTyped(s: State)
    requires Procs(s) && Tables(s)
    ensures TypeOk(s)
  {
    forall p, o | p in s.procs && o in PcObjs(s.procs[p].pc) ensures o in s.meta {
      assert ProcOk(s, p, s.procs[p].pc, s.procs[p].table);
    }
    forall p, n | p in s.procs && n in s.procs[p].table ensures s.procs[p].table[n] in s.meta {
      assert EntryOk(s.meta, p, n, s.procs[p].table[n]);
    }
  }

  // Nothing shared yet; every process between operations.
  ghost predicate Init(s: State) {
    && s.names == map[] && s.meta == map[]
    && s.first == NO_SEG && s.last == NO_SEG && s.numShared == 0 && s.rev == 0 && s.total == 0
    && s.owner == None && s.level == 0
    && |s.procs.Keys| < COUNT_WRAP
    && (forall p :: p in s.procs ==> s.procs[p] == Process(Idle, map[]))
    && s.fchain == [] && s.bchain == [] && s.live == map[] && s.creator == map[]
  }

  lemma InitInv(s: State)
    requires Init(s)
    ensures Inv(s)
  {
  }
}
