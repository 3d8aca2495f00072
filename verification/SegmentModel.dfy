/** The shared-segment protocol as a state machine over atomic steps.

    Processes share named memory objects ("segments").  Each segment carries a
    lock-free counter (count, flag, post), an `is_invalid` mark and the numbers
    of its neighbours in a doubly linked list whose ends are kept in the shared
    info block.  The list is changed under an inter-process lock; counting,
    detaching and unlinking happen outside that lock.

    `Step(s, p, c)` is the state after the next atomic action of process `p`.
    `c` is read only where the process is free to choose what to do next.
    A process that waits (for the lock, or for the post bit) leaves the state
    as it is.

    Segments are identified by `Obj` values that are never reused, so that a
    segment number (which is reused) can be said to denote one incarnation. */
module SegmentModel {
  import opened Counters
  import opened Options

  type Proc = nat
  type Obj = nat

  const NO_SEG: int := -1
  const SEG_MAX: int := 0x7FFF_FFFF

  const REV_MAX: nat := 0xFFFF_FFFF_FFFF_FFFF

  // Who called the removal from the shared list: a garbage collection or a
  // clear, or the CAS loop of a detach that read the counter as `seen`.
  datatype RemoveCaller = Explicit | FromDetach(seen: Counter)

  // Who called the opening of a segment.
  datatype OpenCaller =
    | ForWalk
    | ForAdd(o: Obj)
    | ForPrev(o: Obj, r: RemoveCaller)
    | ForNext(o: Obj, r: RemoveCaller)

  datatype BuildStage = Zeroed | Counted | Marked | Unlisted
  datatype AddStage = AddLock | AddCheck | AddLink | AddPrev | AddValid | AddLast | AddBump | AddUnlock
  datatype RemStage = RemPeek | RemLock | RemCheck | RemMark | RemFixPrev | RemFixNext | RemReset | RemCount | RemBump | RemUnlock
  datatype OpenStage = OpenCount | OpenCheck | OpenWait | OpenTrack
  datatype FinishStage = Unlink | Post | Refund

  datatype Pc =
    | Idle
    | Fault
    | Reserving(k: int, size: nat)
    | Choosing(o: Obj, k: int, size: nat)
    | Building(o: Obj, b: BuildStage)
    | Adding(o: Obj, a: AddStage)
    | Resolving(n: int, w: OpenCaller)
    | Opening(q: Obj, e: OpenStage, w: OpenCaller)
    | Removing(o: Obj, m: RemStage, r: RemoveCaller)
    | Detaching(o: Obj)
    | Swapping(o: Obj, seen: Counter, flagging: bool)
    | Finishing(o: Obj, f: FinishStage)

  datatype Choice =
    | Create(size: nat)
    | Lock
    | Unlock
    | OpenFirst
    | OpenLast
    | OpenNext(n: int)
    | RemoveShared(n: int)
    | Detach(n: int)

  // A segment: its number and size, the metadata that processes read and
  // write, and the history of who is counted in it, who flagged it and how
  // often it was flagged and unlinked.
  datatype Meta = Meta(
    num: int,
    size: nat,
    invalid: bool,
    prev: int,
    next: int,
    ctr: Counter,
    trackers: set<Proc>,
    flagger: Option<Proc>,
    flips: nat,
    unlinks: nat
  )

  // A process: what it is doing, and its table of tracked segments by number.
  datatype Process = Process(pc: Pc, table: map<int, Obj>)

  datatype State = State(
    names: map<int, Obj>,
    meta: map<Obj, Meta>,
    // shared info block
    first: int,
    last: int,
    numShared: int,
    rev: nat,
    total: int,
    maxSegs: nat,
    maxSize: nat,
    // process lock
    owner: Option<Proc>,
    level: nat,
    procs: map<Proc, Process>,
    // history: the list as read forwards and backwards, the sizes reserved and
    // not yet released, and who reserved each segment
    fchain: seq<Obj>,
    bchain: seq<Obj>,
    live: map<Obj, nat>,
    creator: map<Obj, Proc>,
    nextObj: Obj
  )

  // The frame a process returns to after opening a segment.
  function Resume(w: OpenCaller): Pc {
    match w
    case ForWalk => Idle
    case ForAdd(o) => Adding(o, AddLink)
    case ForPrev(o, r) => Removing(o, RemFixPrev, r)
    case ForNext(o, r) => Removing(o, RemFixNext, r)
  }

  // The frame below a call that opens a segment.
  function Base(pc: Pc): Pc {
    match pc
    case Resolving(_, w) => Resume(w)
    case Opening(_, _, w) => Resume(w)
    case _ => pc
  }

  function BaseObjs(pc: Pc): set<Obj> {
    match pc
    case Building(o, _) => {o}
    case Adding(o, _) => {o}
    case Removing(o, _, _) => {o}
    case Detaching(o) => {o}
    case Swapping(o, _, _) => {o}
    case Finishing(o, _) => {o}
    case _ => {}
  }

  function PcObjs(pc: Pc): set<Obj> {
    BaseObjs(Base(pc)) + (if pc.Opening? then {pc.q} else {})
  }

  // The typing of a state: processes refer to segments created before.
  ghost predicate TypeOk(s: State) {
    && (forall p, o :: p in s.procs && o in PcObjs(s.procs[p].pc) ==> o in s.meta)
    && (forall p, n :: p in s.procs && n in s.procs[p].table ==> s.procs[p].table[n] in s.meta)
  }

  function NextNumber(k: int): int {
    if k == SEG_MAX then 0 else k + 1
  }

  function NextRev(rev: nat): nat {
    if rev == REV_MAX then 1 else rev + 1
  }

  // The list without its first occurrence of `o`.
  function Without(c: seq<Obj>, o: Obj): seq<Obj> {
    if c == [] then []
    else if c[0] == o then c[1..]
    else [c[0]] + Without(c[1..], o)
  }

  function Goto(s: State, p: Proc, pc: Pc): State
    requires p in s.procs
  {
    s.(procs := s.procs[p := s.procs[p].(pc := pc)])
  }

  function Track(s: State, p: Proc, n: int, o: Obj, pc: Pc): State
    requires p in s.procs
  {
    s.(procs := s.procs[p := Process(pc, s.procs[p].table[n := o])])
  }

  function Untrack(s: State, p: Proc, n: int, pc: Pc): State
    requires p in s.procs
  {
    s.(procs := s.procs[p := Process(pc, s.procs[p].table - {n})])
  }

  function Write(s: State, o: Obj, m: Meta): State {
    s.(meta := s.meta[o := m])
  }

  function Entered(m: Meta, p: Proc): Meta {
    m.(ctr := Up(m.ctr), trackers := m.trackers + {p})
  }

  // ----- process lock (re-entrant) -----

  predicate CanLock(s: State, p: Proc) {
    s.owner == None || s.owner == Some(p)
  }

  function Acquire(s: State, p: Proc): State {
    s.(owner := Some(p), level := s.level + 1)
  }

  function Release(s: State, p: Proc): State {
    if s.owner == Some(p) && s.level > 1 then s.(level := s.level - 1)
    else if s.owner == Some(p) then s.(owner := None, level := 0)
    else s
  }

  // ----- finding or opening a segment by number -----

  function FindOrOpen(s: State, p: Proc, n: int, w: OpenCaller): State
    requires p in s.procs
  {
    if n in s.procs[p].table then s else Goto(s, p, Resolving(n, w))
  }

  function ResolveStep(s: State, p: Proc, n: int, w: OpenCaller): State
    requires p in s.procs
  {
    if n in s.names then Goto(s, p, Opening(s.names[n], OpenCount, w)) else Goto(s, p, Fault)
  }

  function OpenStep(s: State, p: Proc, q: Obj, e: OpenStage, w: OpenCaller): State
    requires q in s.meta && p in s.procs
  {
    match e
    case OpenCount => Goto(Write(s, q, Entered(s.meta[q], p)), p, Opening(q, OpenCheck, w))
    case OpenCheck => Goto(s, p, Opening(q, if s.meta[q].ctr.flag then OpenWait else OpenTrack, w))
    case OpenWait => if s.meta[q].ctr.post then Goto(s, p, Resolving(s.meta[q].num, w)) else s
    case OpenTrack => Track(s, p, s.meta[q].num, q, Resume(w))
  }

  // ----- creating a segment -----

  function ReserveStep(s: State, p: Proc, k: int, size: nat): State
    requires p in s.procs
  {
    if s.total + size > s.maxSize then Goto(s, p, Idle)
    else
      Goto(s.(total := s.total + size,
              live := s.live[s.nextObj := size],
              creator := s.creator[s.nextObj := p],
              nextObj := s.nextObj + 1),
           p, Choosing(s.nextObj, k, size))
  }

  // Exclusive creation under number `k`; the new memory is zeroed.
  function ChooseStep(s: State, p: Proc, o: Obj, k: int, size: nat): State
    requires p in s.procs
  {
    if k in s.names then Goto(s, p, Choosing(o, NextNumber(k), size))
    else
      Goto(Write(s.(names := s.names[k := o]), o, Meta(k, size, false, 0, 0, Counter(0, false, false), {}, None, 0, 0)),
           p, Building(o, Zeroed))
  }

  function BuildStep(s: State, p: Proc, o: Obj, b: BuildStage): State
    requires o in s.meta && p in s.procs
  {
    match b
    case Zeroed => Goto(Write(s, o, Entered(s.meta[o], p)), p, Building(o, Counted))
    case Counted => Goto(Write(s, o, s.meta[o].(invalid := true)), p, Building(o, Marked))
    case Marked => Goto(Write(s, o, s.meta[o].(next := NO_SEG)), p, Building(o, Unlisted))
    case Unlisted => Track(s, p, s.meta[o].num, o, Adding(o, AddLock))
  }

  // ----- appending to the shared list -----

  function AddStep(s: State, p: Proc, o: Obj, a: AddStage): State
    requires TypeOk(s) && o in s.meta && p in s.procs
  {
    match a
    case AddLock =>
      if CanLock(s, p) then Goto(Acquire(s, p), p, Adding(o, AddCheck)) else s
    case AddCheck =>
      if s.numShared >= s.maxSegs then Untrack(s, p, s.meta[o].num, Detaching(o))
      else Goto(s.(numShared := s.numShared + 1), p, Adding(o, AddLink))
    case AddLink => AddLinkStep(s, p, o)
    case AddPrev => Goto(Write(s, o, s.meta[o].(prev := s.last)), p, Adding(o, AddValid))
    case AddValid => Goto(Write(s, o, s.meta[o].(invalid := false)), p, Adding(o, AddLast))
    case AddLast => Goto(s.(last := s.meta[o].num, bchain := s.bchain + [o]), p, Adding(o, AddBump))
    case AddBump => Goto(s.(rev := NextRev(s.rev)), p, Adding(o, AddUnlock))
    case AddUnlock => Goto(Release(s, p), p, Idle)
  }

  function AddLinkStep(s: State, p: Proc, o: Obj): State
    requires TypeOk(s) && o in s.meta && p in s.procs
  {
    if s.first == NO_SEG then
      Goto(s.(first := s.meta[o].num, fchain := s.fchain + [o]), p, Adding(o, AddPrev))
    else if s.last in s.procs[p].table then
      var z := s.procs[p].table[s.last];
      Goto(Write(s.(fchain := s.fchain + [o]), z, s.meta[z].(next := s.meta[o].num)), p, Adding(o, AddPrev))
    else
      Goto(s, p, Resolving(s.last, ForAdd(o)))
  }

  // ----- removing from the shared list -----

  function AfterRemove(o: Obj, r: RemoveCaller): Pc {
    match r
    case Explicit => Idle
    case FromDetach(seen) => Swapping(o, seen, true)
  }

  function RemStep(s: State, p: Proc, o: Obj, m: RemStage, r: RemoveCaller): State
    requires TypeOk(s) && o in s.meta && p in s.procs
  {
    match m
    case RemPeek =>
      Goto(s, p, if s.meta[o].invalid then AfterRemove(o, r) else Removing(o, RemLock, r))
    case RemLock =>
      if CanLock(s, p) then Goto(Acquire(s, p), p, Removing(o, RemCheck, r)) else s
    case RemCheck =>
      Goto(s, p, Removing(o, if s.meta[o].invalid then RemUnlock else RemMark, r))
    case RemMark =>
      Goto(Write(s, o, s.meta[o].(invalid := true)), p, Removing(o, RemFixPrev, r))
    case RemFixPrev => FixPrevStep(s, p, o, r)
    case RemFixNext => FixNextStep(s, p, o, r)
    case RemReset =>
      Goto(Write(s, o, s.meta[o].(next := NO_SEG, prev := NO_SEG)), p, Removing(o, RemCount, r))
    case RemCount =>
      Goto(s.(numShared := s.numShared - 1), p, Removing(o, RemBump, r))
    case RemBump =>
      Goto(s.(rev := NextRev(s.rev)), p, Removing(o, RemUnlock, r))
    case RemUnlock =>
      Goto(Release(s, p), p, AfterRemove(o, r))
  }

  function FixPrevStep(s: State, p: Proc, o: Obj, r: RemoveCaller): State
    requires TypeOk(s) && o in s.meta && p in s.procs
  {
    if s.meta[o].num == s.first then
      Goto(s.(first := s.meta[o].next, fchain := Without(s.fchain, o)), p, Removing(o, RemFixNext, r))
    else if s.meta[o].prev in s.procs[p].table then
      var z := s.procs[p].table[s.meta[o].prev];
      Goto(Write(s.(fchain := Without(s.fchain, o)), z, s.meta[z].(next := s.meta[o].next)), p, Removing(o, RemFixNext, r))
    else
      Goto(s, p, Resolving(s.meta[o].prev, ForPrev(o, r)))
  }

  function FixNextStep(s: State, p: Proc, o: Obj, r: RemoveCaller): State
    requires TypeOk(s) && o in s.meta && p in s.procs
  {
    if s.meta[o].num == s.last then
      Goto(s.(last := s.meta[o].prev, bchain := Without(s.bchain, o)), p, Removing(o, RemReset, r))
    else if s.meta[o].next in s.procs[p].table then
      var z := s.procs[p].table[s.meta[o].next];
      Goto(Write(s.(bchain := Without(s.bchain, o)), z, s.meta[z].(prev := s.meta[o].prev)), p, Removing(o, RemReset, r))
    else
      Goto(s, p, Resolving(s.meta[o].next, ForNext(o, r)))
  }

  // ----- detaching -----

  // The read of the counter at the top of the CAS loop.
  function DetachStep(s: State, p: Proc, o: Obj): State
    requires o in s.meta && p in s.procs
  {
    var seen := s.meta[o].ctr;
    if !seen.flag && Down(seen).count == 0 then Goto(s, p, Removing(o, RemPeek, FromDetach(seen)))
    else Goto(s, p, Swapping(o, seen, false))
  }

  // The compare-and-swap at the bottom of the loop.
  function SwapStep(s: State, p: Proc, o: Obj, seen: Counter, flagging: bool): State
    requires o in s.meta && p in s.procs
  {
    var m := s.meta[o];
    if m.ctr != seen then Goto(s, p, Detaching(o))
    else
      var after := if flagging then Down(seen).(flag := true) else Down(seen);
      var left := m.(ctr := after, trackers := m.trackers - {p});
      if after.flag != seen.flag then
        Goto(Write(s, o, left.(flips := m.flips + 1, flagger := Some(p))), p, Finishing(o, Unlink))
      else
        Goto(Write(s, o, left), p, Idle)
  }

  function FinishStep(s: State, p: Proc, o: Obj, f: FinishStage): State
    requires o in s.meta && p in s.procs
  {
    match f
    case Unlink =>
      var n := s.meta[o].num;
      if n in s.names && s.names[n] in s.meta then
        var gone := s.names[n];
        Goto(Write(s.(names := s.names - {n}), gone, s.meta[gone].(unlinks := s.meta[gone].unlinks + 1)), p, Finishing(o, Post))
      else Goto(s, p, Fault)
    case Post =>
      Goto(Write(s, o, s.meta[o].(ctr := s.meta[o].ctr.(post := true))), p, Finishing(o, Refund))
    case Refund =>
      Goto(s.(total := s.total - s.meta[o].size, live := s.live - {o}), p, Idle)
  }

  // ----- what a process may do between operations -----

  // A walk over the list is a sequence of OpenFirst and OpenNext choices made
  // while the lock is held; a clear is a lock, then removals and detaches, then
  // an unlock.
  function IdleStep(s: State, p: Proc, c: Choice): State
    requires TypeOk(s) && p in s.procs
  {
    var table := s.procs[p].table;
    match c
    case Create(size) => Goto(s, p, Reserving(NextNumber(s.last), size))
    case Lock => if CanLock(s, p) then Acquire(s, p) else s
    case Unlock => Release(s, p)
    case OpenFirst =>
      if s.owner == Some(p) && s.first != NO_SEG then FindOrOpen(s, p, s.first, ForWalk) else s
    case OpenLast =>
      if s.owner == Some(p) && s.last != NO_SEG then FindOrOpen(s, p, s.last, ForWalk) else s
    case OpenNext(n) =>
      if s.owner == Some(p) && n in table && s.meta[table[n]].next != NO_SEG
      then FindOrOpen(s, p, s.meta[table[n]].next, ForWalk) else s
    case RemoveShared(n) =>
      if n in table then Goto(s, p, Removing(table[n], RemPeek, Explicit)) else s
    case Detach(n) =>
      if n in table then Untrack(s, p, n, Detaching(table[n])) else s
  }

  function Step(s: State, p: Proc, c: Choice): State
    requires TypeOk(s) && p in s.procs
  {
    match s.procs[p].pc
    case Idle => IdleStep(s, p, c)
    case Fault => s
    case Reserving(k, size) => ReserveStep(s, p, k, size)
    case Choosing(o, k, size) => ChooseStep(s, p, o, k, size)
    case Building(o, b) => BuildStep(s, p, o, b)
    case Adding(o, a) => AddStep(s, p, o, a)
    case Resolving(n, w) => ResolveStep(s, p, n, w)
    case Opening(q, e, w) => OpenStep(s, p, q, e, w)
    case Removing(o, m, r) => RemStep(s, p, o, m, r)
    case Detaching(o) => DetachStep(s, p, o)
    case Swapping(o, seen, flagging) => SwapStep(s, p, o, seen, flagging)
    case Finishing(o, f) => FinishStep(s, p, o, f)
  }
}
