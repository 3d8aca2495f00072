/** Attaching to and leaving the shared info block, as a state machine over
    atomic steps.

    The block is one named memory object.  Whoever attaches opens it, creating it
    if there is none, and counts itself in with a compare-and-swap; the first one
    in initialises it; the last one out sets the flag with the same
    compare-and-swap that brings the count to zero, unlinks the name and sets the
    post bit.  Whoever counts itself in too late sees the flag, waits for the post
    bit and starts again with a new block.

    Blocks are identified by `Block` values that are never reused. */
module InfoProtocol {
  import opened Counters
  import opened Options

  type Proc = nat
  type Block = nat

  datatype Pc =
    | Out
    | Opened(b: Block)
    | Entering(b: Block, seen: Counter)
    | Checking(b: Block, count: nat)
    | Waiting(b: Block)
    | Resetting(b: Block)
    | Announcing(b: Block)
    | Ready(b: Block)
    | In(b: Block)
    | Exiting(b: Block)
    | Leaving(b: Block, seen: Counter)
    | Unlinking(b: Block)
    | Posting(b: Block)
    | PostSwap(b: Block, seen: Counter)

  // A block: its counter and mark, and the history of who created it, who is
  // counted in without having seen the flag, who came first, who flagged it,
  // and how often it was initialised and unlinked.
  datatype Info = Info(
    ctr: Counter,
    initialized: bool,
    creator: Proc,
    members: set<Proc>,
    starter: Option<Proc>,
    ender: Option<Proc>,
    inits: nat,
    unlinks: nat
  )

  datatype State = State(name: Option<Block>, infos: map<Block, Info>, procs: map<Proc, Pc>, nextBlock: Block)

  datatype Choice = Stay | Leave

  function Goto(s: State, p: Proc, pc: Pc): State {
    s.(procs := s.procs[p := pc])
  }

  function Write(s: State, b: Block, i: Info): State {
    s.(infos := s.infos[b := i])
  }

  // Opening creates the block, zeroed, when the name is free.
  function OpenStep(s: State, p: Proc): State {
    match s.name
    case Some(b) => Goto(s, p, Opened(b))
    case None =>
      var b := s.nextBlock;
      Goto(Write(s.(name := Some(b), nextBlock := b + 1), b, Info(Counter(0, false, false), false, p, {}, None, None, 0, 0)), p, Opened(b))
  }

  function EnterStep(s: State, p: Proc, b: Block, seen: Counter): State
    requires b in s.infos
  {
    var i := s.infos[b];
    if i.ctr != seen then Goto(s, p, Opened(b))
    else
      var after := Up(seen);
      var counted := if seen.flag then i else i.(members := i.members + {p}, starter := if i.starter == None then Some(p) else i.starter);
      Goto(Write(s, b, counted.(ctr := after)), p, Checking(b, after.count))
  }

  function LeaveStep(s: State, p: Proc, b: Block, seen: Counter): State
    requires b in s.infos
  {
    var i := s.infos[b];
    if i.ctr != seen then Goto(s, p, Exiting(b))
    else
      var down := Down(seen);
      var after := if down.count == 0 then down.(flag := true) else down;
      var left := i.(ctr := after, members := i.members - {p});
      if after.flag != seen.flag then Goto(Write(s, b, left.(ender := Some(p))), p, Unlinking(b))
      else Goto(Write(s, b, left), p, Out)
  }

  function Step(s: State, p: Proc, c: Choice): State
    requires p in s.procs && TypeOk(s)
  {
    match s.procs[p]
    case Out => OpenStep(s, p)
    case Opened(b) => Goto(s, p, Entering(b, s.infos[b].ctr))
    case Entering(b, seen) => EnterStep(s, p, b, seen)
    case Checking(b, count) =>
      if s.infos[b].ctr.flag then Goto(s, p, Waiting(b))
      else if count == 1 then Goto(s, p, Resetting(b))
      else Goto(s, p, Ready(b))
    case Waiting(b) => if s.infos[b].ctr.post then Goto(s, p, Out) else s
    case Resetting(b) => Goto(Write(s, b, s.infos[b].(inits := s.infos[b].inits + 1)), p, Announcing(b))
    case Announcing(b) => Goto(Write(s, b, s.infos[b].(initialized := true)), p, Ready(b))
    case Ready(b) => if s.infos[b].initialized then Goto(s, p, In(b)) else s
    case In(b) => if c == Leave then Goto(s, p, Exiting(b)) else s
    case Exiting(b) => Goto(s, p, Leaving(b, s.infos[b].ctr))
    case Leaving(b, seen) => LeaveStep(s, p, b, seen)
    case Unlinking(b) =>
      Goto(Write(s.(name := None), b, s.infos[b].(unlinks := s.infos[b].unlinks + 1)), p, Posting(b))
    case Posting(b) => Goto(s, p, PostSwap(b, s.infos[b].ctr))
    case PostSwap(b, seen) =>
      if s.infos[b].ctr != seen then Goto(s, p, Posting(b))
      else Goto(Write(s, b, s.infos[b].(ctr := seen.(post := true))), p, Out)
  }

  ghost predicate TypeOk(s: State) {
    forall p :: p in s.procs && !s.procs[p].Out? ==> s.procs[p].b in s.infos
  }

  // ----- the invariant -----

  predicate At(procs: map<Proc, Pc>, p: Proc, b: Block) {
    p in procs && !procs[p].Out? && procs[p].b == b
  }

  // Past the check of the flag.
  predicate Accepted(pc: Pc) {
    pc.Resetting? || pc.Announcing? || pc.Ready? || pc.In? || pc.Exiting? || pc.Leaving?
  }

  predicate Starting(pc: Pc) {
    (pc.Checking? && pc.count == 1) || pc.Resetting? || pc.Announcing?
  }

  predicate Ending(pc: Pc) {
    pc.Unlinking? || pc.Posting? || pc.PostSwap?
  }

  ghost predicate InfoOk(s: State, b: Block, i: Info) {
    && b < s.nextBlock
    && i.members <= s.procs.Keys
    && (forall p :: p in i.members ==> At(s.procs, p, b) && (s.procs[p].Checking? || Accepted(s.procs[p])))
    // in use
    && (!i.ctr.flag ==> s.name == Some(b) && i.ctr.count == |i.members| && !i.ctr.post && i.ender == None && i.unlinks == 0)
    && (!i.ctr.flag && i.starter.Some? ==> i.members != {})
    // not entered yet: its creator still will
    && (i.starter == None ==> i.members == {} && !i.ctr.flag && !i.initialized && i.inits == 0
                              && At(s.procs, i.creator, b) && (s.procs[i.creator].Opened? || s.procs[i.creator].Entering?))
    // initialised by the first one in, who is still at it otherwise
    && (i.initialized ==> i.inits == 1)
    && (i.starter.Some? && !i.initialized ==>
          i.starter.value in i.members && At(s.procs, i.starter.value, b) && Starting(s.procs[i.starter.value])
          && i.inits == (if s.procs[i.starter.value].Announcing? then 1 else 0))
    // flagged: the last one out is still at it, or has posted
    && (i.ctr.flag ==> i.members == {} && i.initialized && i.ender.Some?)
    && (i.ctr.flag && !i.ctr.post ==>
          At(s.procs, i.ender.value, b) && Ending(s.procs[i.ender.value])
          && (s.procs[i.ender.value].Unlinking? ==> s.name == Some(b))
          && i.unlinks == (if s.procs[i.ender.value].Unlinking? then 0 else 1))
    && (i.ctr.flag && (i.ctr.post || !s.procs[i.ender.value].Unlinking?) ==> s.name != Some(b) && i.unlinks == 1)
  }

  ghost predicate ProcOk(s: State, p: Proc, pc: Pc) {
    pc.Out? || (
      pc.b in s.infos &&
      var i := s.infos[pc.b];
      && (Accepted(pc) ==> p in i.members)
      && (pc.Checking? ==> i.ctr.flag || p in i.members)
      && (pc.Checking? && pc.count == 1 && p in i.members ==> i.starter == Some(p) && !i.initialized)
      && (pc.Waiting? ==> i.ctr.flag)
      && (pc.Resetting? || pc.Announcing? ==> i.starter == Some(p) && !i.initialized)
      && (pc.In? || pc.Exiting? || pc.Leaving? ==> i.initialized)
      && (Ending(pc) ==> i.ctr.flag && i.ender == Some(p) && !i.ctr.post)
      && (pc.PostSwap? ==> pc.seen.flag)
      && (pc.Opened? || pc.Entering? ==> p !in i.members))
  }

  ghost predicate Inv(s: State) {
    && |s.procs.Keys| < COUNT_WRAP
    && (s.name.Some? ==> s.name.value in s.infos)
    && (forall b :: b in s.infos ==> InfoOk(s, b, s.infos[b]))
    && (forall p :: p in s.procs ==> ProcOk(s, p, s.procs[p]))
  }

  ghost predicate Init(s: State) {
    s.name == None && s.infos == map[] && |s.procs.Keys| < COUNT_WRAP && forall p :: p in s.procs ==> s.procs[p] == Out
  }
}
