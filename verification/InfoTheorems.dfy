/** What holds of the shared info block in every state that any schedule of any
    processes can reach. */
module InfoTheorems {
  import opened Options
  import opened InfoProtocol
  import opened InfoSafety

  ghost function Turn(s: State, p: Proc, c: Choice): State {
    if p in s.procs && TypeOk(s) then Step(s, p, c) else s
  }

  ghost function Run(s: State, sched: seq<(Proc, Choice)>): State {
    if sched == [] then s
    else
      var k := |sched| - 1;
      Turn(Run(s, sched[..k]), sched[k].0, sched[k].1)
  }

  ghost predicate Reachable(s: State) {
    exists s0, sched :: Init(s0) && s == Run(s0, sched)
  }

  // A step moves the process that makes it and no other.
  lemma OnlyMoves(s: State, p: Proc, c: Choice)
    requires TypeOk(s) && p in s.procs
    ensures p in Step(s, p, c).procs && Step(s, p, c).procs == s.procs[p := Step(s, p, c).procs[p]]
  {}

  // Processes never refer to a block that does not exist, so a turn is a step.
  lemma {:induction false} RunSafe(s0: State, sched: seq<(Proc, Choice)>)
    requires Init(s0)
    ensures Inv(Run(s0, sched)) && TypeOk(Run(s0, sched))
  {
    hide Step;
    if sched != [] {
      var k := |sched| - 1;
      RunSafe(s0, sched[..k]);
      var s := Run(s0, sched[..k]);
      if sched[k].0 in s.procs {
        StepKeeps(s, sched[k].0, sched[k].1);
        Typed(Step(s, sched[k].0, sched[k].1));
      }
    }
  }

  lemma ReachableSafe(s: State)
    requires Reachable(s)
    ensures Inv(s) && TypeOk(s)
  {
    hide Inv, TypeOk, Run, Init;
    var s0, sched :| Init(s0) && s == Run(s0, sched);
    RunSafe(s0, sched);
  }

  lemma GetProc(s: State, p: Proc)
    requires Inv(s) && p in s.procs && !s.procs[p].Out?
    ensures ProcOk(s, p, s.procs[p]) && s.procs[p].b in s.infos && InfoOk(s, s.procs[p].b, s.infos[s.procs[p].b])
  {}

  // All processes accepted into the shared info block are attached to one and
  // the same block, the one that carries the name.
  lemma AcceptedTogether(s: State, p: Proc, q: Proc)
    requires Reachable(s) && p in s.procs && q in s.procs && Accepted(s.procs[p]) && Accepted(s.procs[q])
    ensures s.procs[p].b == s.procs[q].b && s.name == Some(s.procs[p].b)
    ensures s.procs[p].b in s.infos && !s.infos[s.procs[p].b].ctr.flag && {p, q} <= s.infos[s.procs[p].b].members
    ensures s.infos[s.procs[p].b].ctr.count == |s.infos[s.procs[p].b].members|
  {
    hide Reachable, Inv;
    ReachableSafe(s);
    GetProc(s, p);
    GetProc(s, q);
  }

  // Each block is initialised once, by one process, before anybody is in.
  lemma InitialisedOnce(s: State, b: Block)
    requires Reachable(s) && b in s.infos
    ensures s.infos[b].inits <= 1
    ensures forall p :: p in s.procs && (s.procs[p] == In(b) || s.procs[p] == Exiting(b)) ==> s.infos[b].initialized && s.infos[b].inits == 1
    ensures forall p, q :: p in s.procs && q in s.procs && (s.procs[p].Resetting? || s.procs[p].Announcing?) && (s.procs[q].Resetting? || s.procs[q].Announcing?) ==> p == q
  {
    hide Reachable, Inv;
    ReachableSafe(s);
    GetInfo(s, b);
    forall p | p in s.procs && (s.procs[p] == In(b) || s.procs[p] == Exiting(b)) ensures s.infos[b].initialized && s.infos[b].inits == 1 {
      GetProc(s, p);
    }
    forall p, q | p in s.procs && q in s.procs && (s.procs[p].Resetting? || s.procs[p].Announcing?) && (s.procs[q].Resetting? || s.procs[q].Announcing?)
      ensures p == q
    {
      GetProc(s, p);
      GetProc(s, q);
    }
  }

  lemma GetInfo(s: State, b: Block)
    requires Inv(s) && b in s.infos
    ensures InfoOk(s, b, s.infos[b])
  {}

  // A block is unlinked once, while it still carries the name, and it no longer
  // does when the post bit is seen.
  lemma UnlinkedOnce(s: State, b: Block)
    requires Reachable(s) && b in s.infos
    ensures s.infos[b].unlinks <= 1
    ensures s.infos[b].ctr.post ==> s.infos[b].ctr.flag && s.infos[b].unlinks == 1 && s.name != Some(b)
    ensures forall p :: p in s.procs && s.procs[p] == Unlinking(b) ==> s.name == Some(b) && s.infos[b].unlinks == 0
  {
    hide Reachable, Inv;
    ReachableSafe(s);
    GetInfo(s, b);
    forall p | p in s.procs && s.procs[p] == Unlinking(b) ensures s.name == Some(b) && s.infos[b].unlinks == 0 {
      GetProc(s, p);
    }
  }

  ghost predicate PostComing(s: State, b: Block) {
    b in s.infos && (s.infos[b].ctr.post || exists q :: At(s.procs, q, b) && Ending(s.procs[q]))
  }

  ghost predicate StartComing(s: State, b: Block) {
    b in s.infos && (s.infos[b].initialized || exists q :: At(s.procs, q, b) && Starting(s.procs[q]))
  }

  // Whoever waits, for the post bit or for the initialisation, waits for a
  // process that is still on its way to provide it.
  lemma WaitsForSomebody(s: State, p: Proc)
    requires Reachable(s) && p in s.procs
    ensures s.procs[p].Waiting? ==> PostComing(s, s.procs[p].b)
    ensures s.procs[p].Ready? ==> StartComing(s, s.procs[p].b)
  {
    hide Reachable, Inv;
    ReachableSafe(s);
    if !s.procs[p].Out? {
      GetProc(s, p);
      var i := s.infos[s.procs[p].b];
      if s.procs[p].Waiting? && !i.ctr.post {
        assert At(s.procs, i.ender.value, s.procs[p].b);
      }
      if s.procs[p].Ready? && !i.initialized {
        assert At(s.procs, i.starter.value, s.procs[p].b);
      }
    }
  }

  // When every process has left, nothing is left behind: no name, and every
  // block ever created has been unlinked.
  lemma NothingLeaks(s: State)
    requires Reachable(s) && (forall p :: p in s.procs ==> s.procs[p] == Out)
    ensures s.name == None
    ensures forall b :: b in s.infos ==> s.infos[b].ctr.flag && s.infos[b].ctr.post && s.infos[b].unlinks == 1
  {
    hide Reachable, Inv;
    ReachableSafe(s);
    forall b | b in s.infos ensures s.infos[b].ctr.flag && s.infos[b].ctr.post && s.infos[b].unlinks == 1 && s.name != Some(b) {
      GetInfo(s, b);
      GoneWhenLeft(s, b);
    }
    if s.name.Some? {
      NameExists(s);
    }
  }

  lemma NameExists(s: State)
    requires Inv(s) && s.name.Some?
    ensures s.name.value in s.infos
  {}

  lemma GoneWhenLeft(s: State, b: Block)
    requires b in s.infos && InfoOk(s, b, s.infos[b]) && (forall p :: p in s.procs ==> s.procs[p] == Out)
    ensures s.infos[b].ctr.flag && s.infos[b].ctr.post && s.infos[b].unlinks == 1 && s.name != Some(b)
  {
    assert forall p :: p in s.infos[b].members ==> At(s.procs, p, b);
    assert s.infos[b].members == {};
  }

  // A block that is flagged, posted, or no longer named stays so.
  lemma EndIsFinal(s: State, p: Proc, c: Choice, b: Block)
    requires Reachable(s) && TypeOk(s) && p in s.procs && b in s.infos
    ensures b in Step(s, p, c).infos
    ensures s.infos[b].ctr.flag ==> Step(s, p, c).infos[b].ctr.flag
    ensures s.infos[b].ctr.post ==> Step(s, p, c).infos[b].ctr.post
    ensures s.infos[b].unlinks == 1 ==> Step(s, p, c).infos[b].unlinks == 1 && Step(s, p, c).name != Some(b)
  {
    hide Reachable, Inv;
    ReachableSafe(s);
    StepKeeps(s, p, c);
    GetInfo(s, b);
    if !s.procs[p].Out? {
      GetProc(s, p);
    }
  }
}
