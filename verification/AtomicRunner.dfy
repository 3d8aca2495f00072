/** The atomic mode: any number of processes that run compare-and-swap loops over
    the same elements. */
module AtomicRunner {
  import opened IndexedOps

  type Proc = nat

  // One operation on one element.
  datatype Update<I> = Update(index: nat, input: I)

  // Between its read and its swap a process holds the value it has read; `at` is
  // how many updates had been made by then.
  datatype Pending<D> = Start | Held(seen: D, at: nat)

  // A process, with the updates it is to make and how many it has made.
  datatype Runner<D, I> = Runner(todo: seq<Update<I>>, next: nat, pending: Pending<D>)

  // The shared elements, the processes, and the updates made so far in order.
  datatype State<D, I> = State(mem: seq<D>, runners: map<Proc, Runner<D, I>>, log: seq<(Proc, Update<I>)>)

  predicate Wellformed<D, I>(s: State<D, I>) {
    forall p, i :: p in s.runners && 0 <= i < |s.runners[p].todo| ==> s.runners[p].todo[i].index < |s.mem|
  }

  // The next step of process `p`: it reads, or it swaps; a swap that finds another
  // value than the one read starts over.
  function Step<D(==), I>(s: State<D, I>, p: Proc, op: (D, I) -> D): State<D, I>
    requires Wellformed(s)
  {
    if p !in s.runners || s.runners[p].next >= |s.runners[p].todo| then s
    else
      var r := s.runners[p];
      var u := r.todo[r.next];
      match r.pending
      case Start => s.(runners := s.runners[p := r.(pending := Held(s.mem[u.index], |s.log|))])
      case Held(seen, _) =>
        if s.mem[u.index] != seen then s.(runners := s.runners[p := r.(pending := Start)])
        else
          State(s.mem[u.index := op(seen, u.input)], s.runners[p := r.(next := r.next + 1, pending := Start)], s.log + [(p, u)])
  }

  lemma StepWellformed<D, I>(s: State<D, I>, p: Proc, op: (D, I) -> D)
    requires Wellformed(s)
    ensures Wellformed(Step(s, p, op))
  {}

  function Run<D(==), I>(s: State<D, I>, sched: seq<Proc>, op: (D, I) -> D): (t: State<D, I>)
    requires Wellformed(s)
    ensures Wellformed(t)
  {
    if sched == [] then s
    else
      var k := |sched| - 1;
      var t := Run(s, sched[..k], op);
      StepWellformed(t, sched[k], op);
      Step(t, sched[k], op)
  }

  ghost predicate Init<D, I>(s: State<D, I>) {
    && Wellformed(s) && s.log == []
    && forall p :: p in s.runners ==> s.runners[p].next == 0 && s.runners[p].pending == Start
  }

  // ----- what the log says -----

  function Updates<I>(log: seq<(Proc, Update<I>)>): (us: seq<Update<I>>)
    ensures |us| == |log| && forall i :: 0 <= i < |log| ==> us[i] == log[i].1
  {
    seq(|log|, i requires 0 <= i < |log| => log[i].1)
  }

  // The updates one process made.
  function MadeBy<I>(log: seq<(Proc, Update<I>)>, p: Proc): seq<Update<I>> {
    if log == [] then []
    else
      var k := |log| - 1;
      MadeBy(log[..k], p) + if log[k].0 == p then [log[k].1] else []
  }

  predicate Inside<I>(us: seq<Update<I>>, n: nat) {
    forall i :: 0 <= i < |us| ==> us[i].index < n
  }

  // The elements after `us` have been made one after the other.
  function Replay<D, I>(m: seq<D>, us: seq<Update<I>>, op: (D, I) -> D): (r: seq<D>)
    requires Inside(us, |m|)
    ensures |r| == |m|
  {
    if us == [] then m
    else
      var k := |us| - 1;
      var r := Replay(m, us[..k], op);
      r[us[k].index := op(r[us[k].index], us[k].input)]
  }

  // ----- what every step keeps -----

  ghost predicate RunnerOk<D, I>(m0: seq<D>, s: State<D, I>, p: Proc, op: (D, I) -> D)
    requires p in s.runners && Inside(Updates(s.log), |m0|)
  {
    var r := s.runners[p];
    && r.next <= |r.todo|
    && MadeBy(s.log, p) == r.todo[..r.next]
    && (r.pending.Held? ==>
          && r.next < |r.todo| && r.pending.at <= |s.log| && r.todo[r.next].index < |m0|
          && Inside(Updates(s.log[..r.pending.at]), |m0|)
          && Replay(m0, Updates(s.log[..r.pending.at]), op)[r.todo[r.next].index] == r.pending.seen)
  }

  ghost predicate Inv<D, I>(m0: seq<D>, s: State<D, I>, op: (D, I) -> D) {
    && Wellformed(s) && |s.mem| == |m0| && Inside(Updates(s.log), |m0|)
    && (forall i :: 0 <= i < |s.log| ==> s.log[i].0 in s.runners)
    && s.mem == Replay(m0, Updates(s.log), op)
    && forall p :: p in s.runners ==> RunnerOk(m0, s, p, op)
  }

  // A process other than the one that steps, with the log as it was or one longer.
  lemma OtherKeeps<D, I>(m0: seq<D>, s: State<D, I>, t: State<D, I>, p: Proc, q: Proc, u: Update<I>, op: (D, I) -> D)
    requires q != p && q in s.runners && q in t.runners && t.runners[q] == s.runners[q]
    requires Inside(Updates(s.log), |m0|) && Inside(Updates(t.log), |m0|) && RunnerOk(m0, s, q, op)
    requires t.log == s.log || t.log == s.log + [(p, u)]
    ensures RunnerOk(m0, t, q, op)
  {
    var r := s.runners[q];
    assert t.log[..|s.log|] == s.log;
    if r.pending.Held? {
      assert t.log[..r.pending.at] == s.log[..r.pending.at];
    }
    if t.log != s.log {
      assert MadeBy(t.log, q) == MadeBy(s.log, q) + [];
    }
  }

  lemma ReadKeeps<D, I>(m0: seq<D>, s: State<D, I>, p: Proc, r: Runner<D, I>, op: (D, I) -> D)
    requires Inv(m0, s, op) && p in s.runners && r.next == s.runners[p].next < |r.todo| && r.todo == s.runners[p].todo
    requires r.pending == Start || r.pending == Held(s.mem[r.todo[r.next].index], |s.log|)
    ensures Inv(m0, s.(runners := s.runners[p := r]), op)
  {
    hide Replay, MadeBy;
    var t := s.(runners := s.runners[p := r]);
    assert s.log[..|s.log|] == s.log;
    forall q | q in t.runners ensures RunnerOk(m0, t, q, op) {
      assert RunnerOk(m0, s, q, op);
    }
  }

  lemma SwapKeeps<D, I>(m0: seq<D>, s: State<D, I>, p: Proc, u: Update<I>, op: (D, I) -> D)
    requires Inv(m0, s, op) && p in s.runners && s.runners[p].next < |s.runners[p].todo| && u == s.runners[p].todo[s.runners[p].next]
    ensures
      var r := s.runners[p];
      Inv(m0, State(s.mem[u.index := op(s.mem[u.index], u.input)], s.runners[p := r.(next := r.next + 1, pending := Start)], s.log + [(p, u)]), op)
  {
    hide RunnerOk;
    var r := s.runners[p];
    var t := State(s.mem[u.index := op(s.mem[u.index], u.input)], s.runners[p := r.(next := r.next + 1, pending := Start)], s.log + [(p, u)]);
    assert Updates(t.log) == Updates(s.log) + [u] && Updates(t.log)[..|s.log|] == Updates(s.log);
    forall q | q in t.runners ensures RunnerOk(m0, t, q, op) {
      assert RunnerOk(m0, s, q, op);
      if q == p {
        SwapCounts(m0, s, t, p, u, op);
      } else {
        OtherKeeps(m0, s, t, p, q, u, op);
      }
    }
  }

  lemma SwapCounts<D, I>(m0: seq<D>, s: State<D, I>, t: State<D, I>, p: Proc, u: Update<I>, op: (D, I) -> D)
    requires p in s.runners && Inside(Updates(s.log), |m0|) && Inside(Updates(t.log), |m0|) && RunnerOk(m0, s, p, op)
    requires var r := s.runners[p]; r.next < |r.todo| && u == r.todo[r.next] && p in t.runners && t.runners[p] == r.(next := r.next + 1, pending := Start)
    requires t.log == s.log + [(p, u)]
    ensures RunnerOk(m0, t, p, op)
  {
    var r := s.runners[p];
    assert t.log[..|s.log|] == s.log;
    assert r.todo[..r.next + 1] == r.todo[..r.next] + [u];
  }

  lemma StepKeeps<D, I>(m0: seq<D>, s: State<D, I>, p: Proc, op: (D, I) -> D)
    requires Inv(m0, s, op)
    ensures Inv(m0, Step(s, p, op), op)
  {
    hide Inv;
    assert Wellformed(s) by { InvWell(m0, s, op); }
    if p in s.runners && s.runners[p].next < |s.runners[p].todo| {
      var r := s.runners[p];
      var u := r.todo[r.next];
      match r.pending
      case Start => ReadKeeps(m0, s, p, r.(pending := Held(s.mem[u.index], |s.log|)), op);
      case Held(seen, _) =>
        if s.mem[u.index] != seen {
          ReadKeeps(m0, s, p, r.(pending := Start), op);
        } else {
          SwapKeeps(m0, s, p, u, op);
        }
    }
  }

  lemma InvWell<D, I>(m0: seq<D>, s: State<D, I>, op: (D, I) -> D)
    requires Inv(m0, s, op)
    ensures Wellformed(s)
  {}

  lemma {:induction false} RunKeeps<D, I>(s0: State<D, I>, sched: seq<Proc>, op: (D, I) -> D)
    requires Init(s0)
    ensures Inv(s0.mem, Run(s0, sched, op), op)
  {
    hide Inv, Step;
    if sched == [] {
      InitKeeps(s0, op);
    } else {
      var k := |sched| - 1;
      RunKeeps(s0, sched[..k], op);
      StepKeeps(s0.mem, Run(s0, sched[..k], op), sched[k], op);
    }
  }

  lemma InitKeeps<D, I>(s: State<D, I>, op: (D, I) -> D)
    requires Init(s)
    ensures Inv(s.mem, s, op)
  {
    forall p | p in s.runners ensures RunnerOk(s.mem, s, p, op) {
      assert s.runners[p].todo[..0] == [];
    }
  }

  lemma {:induction false} RunSameWork<D, I>(s0: State<D, I>, sched: seq<Proc>, op: (D, I) -> D)
    requires Wellformed(s0)
    ensures var t := Run(s0, sched, op);
      t.runners.Keys == s0.runners.Keys && forall p :: p in t.runners ==> t.runners[p].todo == s0.runners[p].todo
  {
    if sched != [] {
      var k := |sched| - 1;
      RunSameWork(s0, sched[..k], op);
    }
  }

  // ----- the theorems -----

  // The inputs of the updates to element `x`, in order.
  function InputsAt<I>(us: seq<Update<I>>, x: nat): seq<I> {
    if us == [] then []
    else
      var k := |us| - 1;
      InputsAt(us[..k], x) + if us[k].index == x then [us[k].input] else []
  }

  lemma {:induction false} ReplayAt<D, I>(m: seq<D>, us: seq<Update<I>>, op: (D, I) -> D, x: nat)
    requires Inside(us, |m|) && x < |m|
    ensures Replay(m, us, op)[x] == Chain(m[x], InputsAt(us, x), op)
  {
    if us != [] {
      var k := |us| - 1;
      ReplayAt(m, us[..k], op, x);
      if us[k].index == x {
        ChainLast(m[x], InputsAt(us[..k], x), us[k].input, op);
      } else {
        assert InputsAt(us[..k], x) + [] == InputsAt(us[..k], x);
      }
    }
  }

  // No update is lost: whatever the interleaving, each element is its first value
  // with the inputs of the completed updates applied one after the other, and the
  // completed updates of a process are the first of those it is to make, once
  // each and in its order; when it has finished, all of them.
  lemma NothingLost<D, I>(s0: State<D, I>, sched: seq<Proc>, op: (D, I) -> D)
    requires Init(s0)
    ensures
      var t := Run(s0, sched, op);
      && |t.mem| == |s0.mem|
      && (forall x :: 0 <= x < |t.mem| ==> t.mem[x] == Chain(s0.mem[x], InputsAt(Updates(t.log), x), op))
      && (forall i :: 0 <= i < |t.log| ==> t.log[i].0 in s0.runners)
      && forall p :: p in s0.runners ==>
           && p in t.runners && t.runners[p].next <= |s0.runners[p].todo|
           && MadeBy(t.log, p) == s0.runners[p].todo[..t.runners[p].next]
           && (t.runners[p].next == |s0.runners[p].todo| ==> MadeBy(t.log, p) == s0.runners[p].todo)
  {
    var t := Run(s0, sched, op);
    RunKeeps(s0, sched, op);
    RunSameWork(s0, sched, op);
    forall x | 0 <= x < |t.mem| ensures t.mem[x] == Chain(s0.mem[x], InputsAt(Updates(t.log), x), op) {
      ReplayAt(s0.mem, Updates(t.log), op, x);
    }
    forall p | p in s0.runners
      ensures p in t.runners && t.runners[p].next <= |s0.runners[p].todo| && MadeBy(t.log, p) == s0.runners[p].todo[..t.runners[p].next]
    {
      assert p in t.runners.Keys;
      assert RunnerOk(s0.mem, t, p, op);
    }
  }

  // A swap fails only because another update of that element was completed since
  // the read: some process always gets on.
  lemma FailureIsProgress<D, I>(s0: State<D, I>, sched: seq<Proc>, op: (D, I) -> D, p: Proc) returns (k: nat)
    requires Init(s0)
    requires
      var s := Run(s0, sched, op);
      && p in s.runners && s.runners[p].pending.Held? && s.runners[p].next < |s.runners[p].todo|
      && s.mem[s.runners[p].todo[s.runners[p].next].index] != s.runners[p].pending.seen
    ensures
      var s := Run(s0, sched, op);
      var r := s.runners[p];
      r.pending.at <= k < |s.log| && s.log[k].1.index == r.todo[r.next].index
  {
    var s := Run(s0, sched, op);
    RunKeeps(s0, sched, op);
    var r := s.runners[p];
    assert RunnerOk(s0.mem, s, p, op);
    k := ChangedSince(s0.mem, s.log, r.pending.at, r.todo[r.next].index, op);
  }

  lemma {:induction false} ChangedSince<D, I>(m: seq<D>, log: seq<(Proc, Update<I>)>, at: nat, x: nat, op: (D, I) -> D) returns (k: nat)
    requires Inside(Updates(log), |m|) && at <= |log| && x < |m| && Inside(Updates(log[..at]), |m|)
    requires Replay(m, Updates(log[..at]), op)[x] != Replay(m, Updates(log), op)[x]
    ensures at <= k < |log| && log[k].1.index == x
    decreases |log|
  {
    WholeLog(log);
    var n := |log| - 1;
    if log[n].1.index == x {
      k := n;
    } else {
      assert Updates(log)[..n] == Updates(log[..n]) && log[..n][..at] == log[..at];
      k := ChangedSince(m, log[..n], at, x, op);
    }
  }

  lemma WholeLog<I>(log: seq<(Proc, Update<I>)>)
    ensures log[..|log|] == log
  {}

  // ----- one process alone -----

  // The updates of an operation over the elements `idx`.
  function Jobs<I>(idx: seq<nat>, input: seq<I>): (us: seq<Update<I>>)
    requires |input| == 1 || |idx| <= |input|
    ensures |us| == |idx| && forall i :: 0 <= i < |idx| ==> us[i] == Update(idx[i], if |input| == 1 then input[0] else input[i])
  {
    seq(|idx|, i requires 0 <= i < |idx| => Update(idx[i], if |input| == 1 then input[0] else input[i]))
  }

  lemma {:induction false} ReplayIsFold<D, I>(m: seq<D>, idx: seq<nat>, input: seq<I>, op: (D, I) -> D)
    requires (|input| == 1 || |idx| <= |input|) && forall i :: 0 <= i < |idx| ==> idx[i] < |m|
    ensures Replay(m, Jobs(idx, input), op) == Fold(m, idx, input, 0, op)
    decreases |idx|
  {
    if idx != [] {
      var k := |idx| - 1;
      var front, us := idx[..k], Jobs(idx, input);
      ReplayIsFold(m, front, input, op);
      assert us[..k] == Jobs(front, input) && idx == front + [idx[k]];
      FoldConcat(m, front, [idx[k]], input, 0, op);
      FoldSingle(Fold(m, front, input, 0, op), idx[k], input, k, op);
    }
  }

  lemma {:induction false} AllByOne<I>(log: seq<(Proc, Update<I>)>, p: Proc)
    requires forall i :: 0 <= i < |log| ==> log[i].0 == p
    ensures MadeBy(log, p) == Updates(log)
  {
    if log != [] {
      AllByOne(log[..|log| - 1], p);
    }
  }

  // A process that runs alone to its end leaves what the plain mode leaves.
  lemma AloneIsPlain<D, I>(s0: State<D, I>, sched: seq<Proc>, op: (D, I) -> D, p: Proc, idx: seq<nat>, input: seq<I>)
    requires Init(s0) && s0.runners.Keys == {p} && (|input| == 1 || |idx| <= |input|)
    requires s0.runners[p].todo == Jobs(idx, input) && (forall i :: 0 <= i < |idx| ==> idx[i] < |s0.mem|)
    ensures
      var t := Run(s0, sched, op);
      p in t.runners && (t.runners[p].next == |idx| ==> t.mem == Fold(s0.mem, idx, input, 0, op))
  {
    var t := Run(s0, sched, op);
    RunKeeps(s0, sched, op);
    NothingLost(s0, sched, op);
    forall i | 0 <= i < |t.log| ensures t.log[i].0 == p {
      assert t.log[i].0 in s0.runners.Keys;
    }
    AllByOne(t.log, p);
    ReplayIsFold(s0.mem, idx, input, op);
  }

  // ----- getting on -----

  // `n` turns of one process in a row.
  function Turns(p: Proc, n: nat): (sched: seq<Proc>)
    ensures |sched| == n && forall i :: 0 <= i < n ==> sched[i] == p
  {
    seq(n, _ => p)
  }

  lemma {:induction false} RunConcat<D, I>(s: State<D, I>, a: seq<Proc>, b: seq<Proc>, op: (D, I) -> D)
    requires Wellformed(s)
    ensures Run(s, a + b, op) == Run(Run(s, a, op), b, op)
    decreases |b|
  {
    hide Step;
    if b == [] {
      assert a + b == a;
    } else {
      var k := |b| - 1;
      assert (a + b)[..|a| + k] == a + b[..k];
      RunConcat(s, a, b[..k], op);
    }
  }

  lemma OneTurn<D, I>(s: State<D, I>, p: Proc, op: (D, I) -> D)
    requires Wellformed(s)
    ensures Run(s, Turns(p, 0), op) == s && Run(s, Turns(p, 1), op) == Step(s, p, op)
  {
    assert Turns(p, 1)[..0] == [];
  }

  lemma MoreTurns<D, I>(s: State<D, I>, p: Proc, m: nat, n: nat, op: (D, I) -> D)
    requires Wellformed(s)
    ensures Run(s, Turns(p, m + n), op) == Run(Run(s, Turns(p, m), op), Turns(p, n), op)
  {
    assert Turns(p, m + n) == Turns(p, m) + Turns(p, n);
    RunConcat(s, Turns(p, m), Turns(p, n), op);
  }

  // The state after the next update of `p` has been made.
  function Made<D, I>(s: State<D, I>, p: Proc, op: (D, I) -> D): State<D, I>
    requires Wellformed(s) && p in s.runners && s.runners[p].next < |s.runners[p].todo|
  {
    var r := s.runners[p];
    var u := r.todo[r.next];
    State(s.mem[u.index := op(s.mem[u.index], u.input)], s.runners[p := Runner(r.todo, r.next + 1, Start)], s.log + [(p, u)])
  }

  lemma MadeTwo<D, I>(s: State<D, I>, p: Proc, op: (D, I) -> D)
    requires Wellformed(s) && p in s.runners && s.runners[p].next < |s.runners[p].todo| && s.runners[p].pending == Start
    ensures Run(s, Turns(p, 2), op) == Made(s, p, op)
  {
    OneTurn(s, p, op);
    StepWellformed(s, p, op);
    OneTurn(Step(s, p, op), p, op);
    MoreTurns(s, p, 1, 1, op);
  }

  // Whatever it has read and whatever the others did since, a process that is given
  // three turns in a row makes its next update, to the value the element has now.
  lemma GetsOn<D, I>(s: State<D, I>, p: Proc, op: (D, I) -> D) returns (n: nat)
    requires Wellformed(s) && p in s.runners && s.runners[p].next < |s.runners[p].todo|
    ensures 1 <= n <= 3 && Run(s, Turns(p, n), op) == Made(s, p, op)
    ensures s.runners[p].pending == Start ==> n == 2
  {
    var r := s.runners[p];
    if r.pending == Start {
      MadeTwo(s, p, op);
      n := 2;
    } else {
      OneTurn(s, p, op);
      if s.mem[r.todo[r.next].index] == r.pending.seen {
        n := 1;
      } else {
        var t := Step(s, p, op);
        StepWellformed(s, p, op);
        MadeTwo(t, p, op);
        MoreTurns(s, p, 1, 2, op);
        n := 3;
      }
    }
  }

  function Signed<I>(us: seq<Update<I>>, p: Proc): (log: seq<(Proc, Update<I>)>)
    ensures |log| == |us| && forall i :: 0 <= i < |us| ==> log[i] == (p, us[i])
  {
    seq(|us|, i requires 0 <= i < |us| => (p, us[i]))
  }

  // A process between two updates makes all its others in two turns each.
  lemma {:induction false} FinishesAlone<D, I>(s: State<D, I>, p: Proc, op: (D, I) -> D)
    requires Wellformed(s) && p in s.runners && s.runners[p].next <= |s.runners[p].todo| && s.runners[p].pending == Start
    ensures
      var r := s.runners[p];
      var rest := r.todo[r.next..];
      && Inside(rest, |s.mem|)
      && Run(s, Turns(p, 2 * |rest|), op) == State(Replay(s.mem, rest, op), s.runners[p := Runner(r.todo, |r.todo|, Start)], s.log + Signed(rest, p))
    decreases |s.runners[p].todo| - s.runners[p].next
  {
    hide Step, Run, Replay, Made, Wellformed;
    var r := s.runners[p];
    var rest := r.todo[r.next..];
    if r.next == |r.todo| {
      OneTurn(s, p, op);
      NoReplay(s.mem, op);
      assert s.runners[p := r] == s.runners && s.log + [] == s.log;
    } else {
      MadeTwo(s, p, op);
      MadeParts(s, p, op);
      FinishesAlone(Made(s, p, op), p, op);
      assert rest[1..] == r.todo[r.next + 1..];
      FinishedRest(s, p, op, rest);
      MoreTurns(s, p, 2, 2 * |rest| - 2, op);
    }
  }

  // One update made, then the others.
  lemma FinishedRest<D, I>(s: State<D, I>, p: Proc, op: (D, I) -> D, rest: seq<Update<I>>)
    requires Wellformed(s) && p in s.runners && s.runners[p].next < |s.runners[p].todo| && rest == s.runners[p].todo[s.runners[p].next..]
    ensures Inside(rest, |s.mem|) && Inside(rest[1..], |s.mem|) && |Made(s, p, op).mem| == |s.mem|
    ensures
      var t, r := Made(s, p, op), s.runners[p];
      State(Replay(t.mem, rest[1..], op), t.runners[p := Runner(r.todo, |r.todo|, Start)], t.log + Signed(rest[1..], p))
      == State(Replay(s.mem, rest, op), s.runners[p := Runner(r.todo, |r.todo|, Start)], s.log + Signed(rest, p))
  {
    hide Replay;
    ReplayFirst(s.mem, rest, op);
    assert (s.log + [(p, rest[0])]) + Signed(rest[1..], p) == s.log + Signed(rest, p);
  }

  lemma NoReplay<D, I>(m: seq<D>, op: (D, I) -> D)
    ensures Replay(m, [], op) == m
  {}

  lemma MadeParts<D, I>(s: State<D, I>, p: Proc, op: (D, I) -> D)
    requires Wellformed(s) && p in s.runners && s.runners[p].next < |s.runners[p].todo|
    ensures
      var t, r := Made(s, p, op), s.runners[p];
      Wellformed(t) && |t.mem| == |s.mem| && p in t.runners && t.runners[p] == Runner(r.todo, r.next + 1, Start)
  {}

  lemma {:induction false} ReplayFirst<D, I>(m: seq<D>, us: seq<Update<I>>, op: (D, I) -> D)
    requires us != [] && Inside(us, |m|)
    ensures Replay(m, us, op) == Replay(m[us[0].index := op(m[us[0].index], us[0].input)], us[1..], op)
    decreases |us|
  {
    var k := |us| - 1;
    if k > 0 {
      ReplayFirst(m, us[..k], op);
      assert us[..k][1..] == us[1..][..k - 1];
    } else {
      assert us[..0] == [] && us[1..] == [];
    }
  }

  // An operation run alone is over after two turns for each element, and has done what
  // the plain mode does, whoever else is there.
  lemma AloneFinishes<D, I>(s0: State<D, I>, op: (D, I) -> D, p: Proc, idx: seq<nat>, input: seq<I>)
    requires Init(s0) && p in s0.runners && (|input| == 1 || |idx| <= |input|)
    requires s0.runners[p].todo == Jobs(idx, input) && (forall i :: 0 <= i < |idx| ==> idx[i] < |s0.mem|)
    ensures
      var t := Run(s0, Turns(p, 2 * |idx|), op);
      p in t.runners && t.runners[p].next == |idx| && t.mem == Fold(s0.mem, idx, input, 0, op)
  {
    hide Run, Replay, Fold;
    var us := Jobs(idx, input);
    assert us[0..] == us;
    FinishesAlone(s0, p, op);
    ReplayIsFold(s0.mem, idx, input, op);
  }
}
