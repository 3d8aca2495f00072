/** The progress of the two protocols within the joined one: a process in the block works
    as in the segment protocol, and one that has detached from everything attaches and
    leaves as in the protocol of the block. */
module JoinedProgress {
  import opened Options
  import IP = InfoProgress
  import SR = SegmentRank
  import SP = SegmentAlone
  import opened JoinedProtocol

  // `n` moves of one process in a row.
  function Moves(p: nat, m: Move, n: nat): (moves: seq<(nat, Move)>)
    ensures |moves| == n && forall i :: 0 <= i < n ==> moves[i] == (p, m)
  {
    seq(n, _ => (p, m))
  }

  lemma MovesLast(p: nat, m: Move, n: nat)
    requires n > 0
    ensures Moves(p, m, n)[..n - 1] == Moves(p, m, n - 1)
  {}

  lemma {:induction false} RunConcat(j: Both, a: seq<(nat, Move)>, b: seq<(nat, Move)>)
    ensures Run(j, a + b) == Run(Run(j, a), b)
    decreases |b|
  {
    hide Next;
    if b == [] {
      assert a + b == a;
    } else {
      var k := |b| - 1;
      assert (a + b)[..|a| + k] == a + b[..k];
      RunConcat(j, a, b[..k]);
    }
  }

  lemma ReachesOn(j: Both, moves: seq<(nat, Move)>)
    requires Reachable(j)
    ensures Reachable(Run(j, moves))
  {
    hide Init, Next, Run;
    var j0, first :| Init(j0) && j == Run(j0, first);
    RunConcat(j0, first, moves);
    assert Run(j, moves) == Run(j0, first + moves);
  }

  // ----- the protocol of the block within the joined one -----

  lemma {:induction false} Projects(j0: Both, moves: seq<(nat, Move)>) returns (sched: seq<(nat, I.Choice)>)
    ensures IT.Run(j0.info, sched) == Run(j0, moves).info
  {
    hide IT.Turn, ST.Turn, Reset;
    if moves == [] {
      sched := [];
    } else {
      var k := |moves| - 1;
      sched := Projects(j0, moves[..k]);
      var j, p, m := Run(j0, moves[..k]), moves[k].0, moves[k].1;
      if m.Attach? && Next(j, p, m).info == IT.Turn(j.info, p, m.way) {
        assert (sched + [(p, m.way)])[..|sched|] == sched;
        sched := sched + [(p, m.way)];
      }
    }
  }

  // Whatever holds of the protocol of the block holds of it here.
  lemma ReachableInfo(j: Both)
    requires Reachable(j)
    ensures IT.Reachable(j.info)
  {
    hide I.Init, SI.Init, IT.Run, Run;
    var j0, moves :| Init(j0) && j == Run(j0, moves);
    var sched := Projects(j0, moves);
    assert I.Init(j0.info) && j.info == IT.Run(j0.info, sched);
  }

  // Attaching and leaving go as in the protocol of the block, whatever else there is.
  lemma {:induction false} Attaches(j: Both, p: nat, way: I.Choice, n: nat)
    requires p in j.info.procs && p in j.seg.procs && j.seg.procs[p] == DETACHED && I.Inv(j.info) && I.TypeOk(j.info)
    ensures
      var t := Run(j, Moves(p, Attach(way), n));
      && t.info == IT.Run(j.info, IP.Turns(p, way, n)) && p in t.info.procs
      && ((t.seg == j.seg && NoInits(j.info, t.info)) || t.seg == Reset(j.seg))
    decreases n
  {
    hide IT.Turn, ST.Turn, I.Inv, NoInits;
    NoInitsSelf(j.info);
    if n > 0 {
      Attaches(j, p, way, n - 1);
      MovesLast(p, Attach(way), n);
      assert IP.Turns(p, way, n)[..n - 1] == IP.Turns(p, way, n - 1);
      var t := Run(j, Moves(p, Attach(way), n - 1));
      TurnThere(t.info, p, way);
      if NoInits(j.info, t.info) && !t.info.procs[p].Resetting? {
        NoInitsOn(j.info, t.info, IT.Turn(t.info, p, way));
      }
    }
  }

  lemma TurnThere(s: I.State, p: nat, c: I.Choice)
    requires p in s.procs
    ensures p in IT.Turn(s, p, c).procs && (!s.procs[p].Resetting? ==> NoInits(s, IT.Turn(s, p, c)))
  {}

  // No block has been initialised from `s` to `t`.
  ghost predicate NoInits(s: I.State, t: I.State) {
    forall b :: b in t.infos ==> t.infos[b].inits <= if b in s.infos then s.infos[b].inits else 0
  }

  lemma NoInitsSelf(s: I.State)
    ensures NoInits(s, s)
  {}

  lemma NoInitsOn(s: I.State, t: I.State, u: I.State)
    requires NoInits(s, t) && NoInits(t, u)
    ensures NoInits(s, u)
  {}

  // The first process in finds everything reset, the revision included.
  lemma FirstAttaches(j: Both, p: nat) returns (n: nat)
    requires Reachable(j) && p in j.info.procs && p in j.seg.procs && j.info.procs[p] == I.Out && j.info.name == None
    ensures n <= 8
    ensures
      var t := Run(j, Moves(p, Attach(I.Stay), n));
      && p in t.info.procs && t.info.procs[p].In? && t.info.name == Some(t.info.procs[p].b)
      && t.seg.names == map[] && t.seg.first == S.NO_SEG && t.seg.last == S.NO_SEG && t.seg.numShared == 0 && t.seg.total == 0 && t.seg.rev == 0
  {
    hide Reachable, Run, I.Inv, I.TypeOk, Safe, IT.Run;
    ReachableSafe(j);
    ReachableInfo(j);
    NamelessOut(j);
    NothingThere(j.seg);
    var s;
    n, s := IP.CreatesAlone(j.info, p);
    Attaches(j, p, I.Stay, n);
    assert s.infos[j.info.nextBlock].inits == 1;
  }

  // With no block named, nobody is in.
  lemma NamelessOut(j: Both)
    requires Inv(j) && j.info.name == None
    ensures forall q :: q in j.seg.procs ==> j.seg.procs[q] == DETACHED
  {
    hide I.Inv, I.TypeOk, Safe;
    forall q | q in j.seg.procs ensures j.seg.procs[q] == DETACHED {
      if j.info.procs[q].In? {
        InNamed(j.info, q);
      }
    }
  }

  // The last process in the block, detached from everything, leaves: the block's name is
  // gone, and so is all that was shared.
  lemma LastLeaves(j: Both, p: nat) returns (n: nat)
    requires Reachable(j) && p in j.info.procs && p in j.seg.procs && j.info.procs[p].In? && j.seg.procs[p] == DETACHED
    requires forall q :: q in j.info.procs && q != p ==> !I.Accepted(j.info.procs[q]) && !j.info.procs[q].Checking?
    ensures n <= 8
    ensures
      var t := Run(j, Moves(p, Attach(I.Leave), n));
      && p in t.info.procs && t.info.procs[p] == I.Out && t.info.name == None
      && t.seg.names == map[] && t.seg.first == S.NO_SEG && t.seg.last == S.NO_SEG && t.seg.total == 0
  {
    hide Reachable, Run, I.Inv, I.TypeOk, Safe, IT.Run;
    ReachableSafe(j);
    ReachableInfo(j);
    var b := j.info.procs[p].b;
    var s;
    n, s := IP.LeavesAlone(j.info, p, b);
    OnlyMember(j.info, p, b);
    Attaches(j, p, I.Leave, n);
    ReachesOn(j, Moves(p, Attach(I.Leave), n));
    var t := Run(j, Moves(p, Attach(I.Leave), n));
    ReachableSafe(t);
    forall q | q in t.seg.procs ensures t.seg.procs[q] == DETACHED {
      if q != p {
        assert q in j.info.procs && !j.info.procs[q].In?;
      }
    }
    NothingThere(t.seg);
  }

  lemma OnlyMember(s: I.State, p: nat, b: I.Block)
    requires I.Inv(s) && p in s.procs && s.procs[p] == I.In(b) && b in s.infos && p in s.infos[b].members
    requires forall q :: q in s.procs && q != p ==> !I.Accepted(s.procs[q]) && !s.procs[q].Checking?
    ensures s.infos[b].members == {p}
  {
    hide I.ProcOk;
    assert I.InfoOk(s, b, s.infos[b]);
  }

  // ----- the segment protocol within the joined one -----

  // A process in the block works as in the segment protocol.
  lemma {:induction false} Shares(j: Both, p: nat, c: S.Choice, n: nat)
    requires p in j.info.procs && p in j.seg.procs && j.info.procs[p].In?
    requires Safe(j.seg)
    ensures Run(j, Moves(p, Share(c), n)) == j.(seg := ST.Run(j.seg, SP.Turns(p, c, n)))
    ensures Safe(ST.Run(j.seg, SP.Turns(p, c, n))) && p in ST.Run(j.seg, SP.Turns(p, c, n)).procs
    decreases n
  {
    hide IT.Turn, ST.Turn, Safe;
    if n > 0 {
      Shares(j, p, c, n - 1);
      MovesLast(p, Share(c), n);
      assert SP.Turns(p, c, n)[..n - 1] == SP.Turns(p, c, n - 1);
      SegmentStep(ST.Run(j.seg, SP.Turns(p, c, n - 1)), p, c);
    }
  }

  // A process in the block, in whatever operation, ends it when it is left to run and can
  // have the lock.
  lemma WorkEnds(j: Both, p: nat, free: int) returns (n: nat)
    requires Reachable(j) && p in j.info.procs && p in j.seg.procs && j.info.procs[p].In?
    requires S.CanLock(j.seg, p) && SR.Numbered(j.seg, p, free)
    ensures
      var t := Run(j, Moves(p, Share(S.Lock), n));
      t.info == j.info && p in t.seg.procs && t.seg.procs[p].pc == S.Idle
  {
    hide Reachable, Run, I.Inv, SI.Inv, S.TypeOk, SP.Works, SR.Numbered, S.Step, SR.Rank;
    ReachableSafe(j);
    var s;
    n, s := SP.GetsDone(j.seg, p, free, (_: S.State) => true);
    SP.WorksRun(j.seg, s, p, n);
    Shares(j, p, S.Lock, n);
  }
}
