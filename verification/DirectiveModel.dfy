/** The processes of the segment protocol with their own lists of segments, and the
    directives that keep those lists in line with the shared one.

    A process tracks segments in an order and remembers the revision it has seen.
    Its directives (updating from the shared list, cleaning, removing a segment,
    leaving) are sequences of steps: reads of shared memory without the lock, steps
    of the segment protocol, and changes to its own list, which `LocalList` shows to
    be what the list operations do.  Every step here is one step of the protocol or
    leaves the shared memory alone, so all that holds of the protocol holds here. */
module DirectiveModel {
  import opened Options
  import opened SegmentModel
  import opened SegmentTheorems
  import SegmentInvariant

  // What a process is in the middle of, besides a protocol operation.
  datatype Act =
    | Quiet
    // updating all: take the lock, follow the shared list, note the revision, give
    // the lock back, drop the `k` segments in front of the list that was followed
    | Entering
    | Walking(i: nat)
    | Fetching(i: nat)
    | Reached(i: nat)
    | Unlocking(k: nat)
    | Dropping(k: nat)
    // updating the latest: look at the last number, twice without the lock and
    // once with it
    | Peeking
    | PeekingAgain
    | Taking
    | Checking
    | Opened
    | Found(o: Obj)
    | Placing(o: Obj)
    | Giving
    // dropping what is invalid; giving up one segment; leaving
    | Cleaning(i: nat)
    | Discarding(n: int)
    | Leaving

  // A process's list, the revision it has seen, and the number of changes there had
  // been then; of its current or last update of the latest, the segment it took for the
  // last one, with the number of changes then, and what it read as the last number.
  datatype Local = Local(order: seq<Obj>, seen: nat, at: nat, act: Act, tip: Option<(Obj, nat)>, looks: seq<int>)

  const NEWCOMER := Local([], 0, 0, Quiet, None, [])

  // `bumps` counts the changes of the revision, and `agreed` is the shared list at
  // the last of them.
  datatype Wide = Wide(core: State, locals: map<Proc, Local>, bumps: nat, agreed: seq<Obj>)

  datatype Deed = Own(c: Choice) | UpdateAll | UpdateLatest | Clean | Discard(n: int) | Leave

  // The revision number after `b` changes: it never comes back to its first value.
  function RevAt(b: nat): nat {
    if b == 0 then 0 else (b - 1) % REV_MAX + 1
  }

  predicate Bumps(pc: Pc) {
    match pc
    case Adding(_, a) => a == AddBump
    case Removing(_, m, _) => m == RemBump
    case _ => false
  }

  // The list of a process after its protocol step: segments are tracked at the end.
  function OrderAfter(s: State, p: Proc, c: Choice, order: seq<Obj>): seq<Obj>
    requires p in s.procs
  {
    match s.procs[p].pc
    case Building(o, b) => if b == Unlisted then order + [o] else order
    case Opening(q, e, _) => if e == OpenTrack then order + [q] else order
    case Adding(o, a) => if a == AddCheck && s.numShared >= s.maxSegs then Without(order, o) else order
    case Idle => if c.Detach? && c.n in s.procs[p].table then Without(order, s.procs[p].table[c.n]) else order
    case _ => order
  }

  function Enact(w: Wide, p: Proc, act: Act): Wide
    requires p in w.locals
  {
    w.(locals := w.locals[p := w.locals[p].(act := act)])
  }

  // One protocol step of `p`.
  ghost function Follow(w: Wide, p: Proc, c: Choice, act: Act): Wide
    requires p in w.locals && p in w.core.procs
  {
    var s, l := w.core, w.locals[p];
    var t := Turn(s, p, c);
    var bump := Bumps(s.procs[p].pc);
    Wide(t, w.locals[p := l.(order := OrderAfter(s, p, c, l.order), act := act)],
         if bump then w.bumps + 1 else w.bumps, if bump then t.fchain else w.agreed)
  }

  function Number(s: State, o: Obj): int {
    if o in s.meta then s.meta[o].num else NO_SEG
  }

  function MoveLast(order: seq<Obj>, o: Obj): seq<Obj> {
    Without(order, o) + [o]
  }

  // ----- the directives, step by step -----

  ghost function QuietStep(w: Wide, p: Proc, d: Deed): Wide
    requires p in w.locals && p in w.core.procs
  {
    var l := w.locals[p];
    match d
    case Own(c) => if c.Detach? then w else Follow(w, p, c, Quiet)
    case UpdateAll => if l.seen == w.core.rev then w else Enact(w, p, Entering)
    case UpdateLatest =>
      if l.seen == w.core.rev then w else w.(locals := w.locals[p := l.(act := Peeking, tip := None, looks := [])])
    case Clean => Enact(w, p, Cleaning(0))
    case Discard(n) => if n in w.core.procs[p].table then Follow(w, p, RemoveShared(n), Discarding(n)) else w
    case Leave => Enact(w, p, Leaving)
  }

  // Following the shared list: the next segment is placed at the end, or opened.
  ghost function WalkStep(w: Wide, p: Proc, i: nat): Wide
    requires p in w.locals && p in w.core.procs
  {
    var s, l := w.core, w.locals[p];
    var table := s.procs[p].table;
    var here := if l.order == [] then NO_SEG else l.order[|l.order| - 1];
    var n := if i == 0 then s.first else if here in s.meta then s.meta[here].next else NO_SEG;
    if n == NO_SEG then Enact(w, p, Reached(i))
    else if n in table then
      w.(locals := w.locals[p := l.(order := MoveLast(l.order, table[n]), act := Walking(i + 1))])
    else Follow(w, p, if i == 0 then OpenFirst else OpenNext(Number(s, here)), Fetching(i))
  }

  ghost function UpdateStep(w: Wide, p: Proc): Wide
    requires p in w.locals && p in w.core.procs
  {
    var s, l := w.core, w.locals[p];
    match l.act
    case Entering => if CanLock(s, p) then Follow(w, p, Lock, Walking(0)) else w
    case Walking(i) => WalkStep(w, p, i)
    case Fetching(i) => Enact(w, p, Walking(i + 1))
    case Reached(i) =>
      var k: nat := if i <= |l.order| then |l.order| - i else 0;
      w.(locals := w.locals[p := l.(seen := s.rev, at := w.bumps, act := Unlocking(k))])
    case Unlocking(k) => Follow(w, p, Unlock, Dropping(k))
    case Dropping(k) =>
      if k == 0 || l.order == [] then Enact(w, p, Quiet)
      else Follow(w, p, SegmentModel.Detach(Number(s, l.order[0])), Dropping(k - 1))
    case _ => w
  }

  ghost function LatestStep(w: Wide, p: Proc): Wide
    requires p in w.locals && p in w.core.procs
  {
    var s, l := w.core, w.locals[p];
    var table := s.procs[p].table;
    match l.act
    case Peeking =>
      if s.last in table then Placed(Looked(w, p), p, table[s.last], Some((table[s.last], w.bumps)))
      else Enact(Looked(w, p), p, PeekingAgain)
    case PeekingAgain => Enact(Looked(w, p), p, if s.last == NO_SEG then Quiet else Taking)
    case Taking => if CanLock(s, p) then Follow(w, p, Lock, Checking) else w
    case Checking =>
      var v := Looked(w, p);
      if s.last in table then
        v.(locals := v.locals[p := v.locals[p].(act := Found(table[s.last]), tip := Some((table[s.last], w.bumps)))])
      else if s.last == NO_SEG then Enact(v, p, Giving)
      else Follow(v, p, OpenLast, Opened)
    case Opened =>
      if l.order == [] then w
      else
        var u := Follow(w, p, Unlock, Quiet);
        u.(locals := u.locals[p := u.locals[p].(tip := Some((l.order[|l.order| - 1], w.bumps)))])
    case Found(o) => Follow(w, p, Unlock, Placing(o))
    case Placing(o) => Placed(w, p, o, l.tip)
    case Giving => Follow(w, p, Unlock, Quiet)
    case _ => w
  }

  // The last number has been read.
  function Looked(w: Wide, p: Proc): Wide
    requires p in w.locals
  {
    w.(locals := w.locals[p := w.locals[p].(looks := w.locals[p].looks + [w.core.last])])
  }

  function Placed(w: Wide, p: Proc, o: Obj, tip: Option<(Obj, nat)>): Wide
    requires p in w.locals
  {
    w.(locals := w.locals[p := w.locals[p].(order := MoveLast(w.locals[p].order, o), act := Quiet, tip := tip)])
  }

  // Segments are given up: those read as invalid, one that was just removed, or all.
  ghost function DropStep(w: Wide, p: Proc, d: Deed): Wide
    requires p in w.locals && p in w.core.procs
  {
    var s, l := w.core, w.locals[p];
    match l.act
    case Cleaning(i) =>
      if i >= |l.order| then Enact(w, p, Quiet)
      else if l.order[i] in s.meta && s.meta[l.order[i]].invalid
      then Follow(w, p, SegmentModel.Detach(Number(s, l.order[i])), Cleaning(i))
      else Enact(w, p, Cleaning(i + 1))
    case Discarding(n) => Follow(w, p, SegmentModel.Detach(n), Quiet)
    case Leaving =>
      if l.order == [] then w.(locals := w.locals[p := NEWCOMER])
      else if d.Discard? && d.n in s.procs[p].table then Follow(w, p, RemoveShared(d.n), Leaving)
      else Follow(w, p, SegmentModel.Detach(Number(s, l.order[0])), Leaving)
    case _ => w
  }

  predicate Updating(act: Act) {
    act.Entering? || act.Walking? || act.Fetching? || act.Reached? || act.Unlocking? || act.Dropping?
  }

  // The next step of `p`; `d` matters only where the process is free to choose.
  ghost function WideStep(w: Wide, p: Proc, d: Deed): Wide {
    if p !in w.locals || p !in w.core.procs then w
    else
      var act := w.locals[p].act;
      if w.core.procs[p].pc != Idle then Follow(w, p, Lock, act)
      else if act.Quiet? then QuietStep(w, p, d)
      else if Updating(act) then UpdateStep(w, p)
      else if GivingUp(act) then DropStep(w, p, d)
      else LatestStep(w, p)
  }

  predicate GivingUp(act: Act) {
    act.Cleaning? || act.Discarding? || act.Leaving?
  }

  ghost function WideRun(w: Wide, sched: seq<(Proc, Deed)>): Wide {
    if sched == [] then w
    else
      var k := |sched| - 1;
      WideStep(WideRun(w, sched[..k]), sched[k].0, sched[k].1)
  }

  ghost predicate WideInit(w: Wide) {
    && SegmentInvariant.Init(w.core) && w.locals.Keys == w.core.procs.Keys && w.bumps == 0 && w.agreed == []
    && forall p :: p in w.locals ==> w.locals[p] == NEWCOMER
  }
}
