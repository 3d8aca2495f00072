/** What a process attains when it is left to run: every retry loop gets on. */
module InfoProgress {
  import opened Counters
  import opened Options
  import opened InfoProtocol
  import opened InfoSafety
  import opened InfoTheorems

  // `n` turns of one process in a row.
  function Turns(p: Proc, c: Choice, n: nat): (sched: seq<(Proc, Choice)>)
    ensures |sched| == n && forall i :: 0 <= i < n ==> sched[i] == (p, c)
  {
    seq(n, _ => (p, c))
  }

  lemma {:induction false} RunConcat(s: State, a: seq<(Proc, Choice)>, b: seq<(Proc, Choice)>)
    ensures Run(s, a + b) == Run(Run(s, a), b)
    decreases |b|
  {
    hide Turn;
    if b == [] {
      assert a + b == a;
    } else {
      var k := |b| - 1;
      assert (a + b)[..|a| + k] == a + b[..k];
      RunConcat(s, a, b[..k]);
    }
  }

  lemma OneTurn(s: State, p: Proc, c: Choice)
    ensures Run(s, Turns(p, c, 0)) == s && Run(s, Turns(p, c, 1)) == Turn(s, p, c)
  {
    hide Turn;
    assert Turns(p, c, 1)[..0] == [];
  }

  lemma MoreTurns(s: State, p: Proc, c: Choice, m: nat, n: nat)
    ensures Run(s, Turns(p, c, m + n)) == Run(Run(s, Turns(p, c, m)), Turns(p, c, n))
  {
    hide Turn;
    assert Turns(p, c, m + n) == Turns(p, c, m) + Turns(p, c, n);
    RunConcat(s, Turns(p, c, m), Turns(p, c, n));
  }

  // `n` turns of `p` alone lead from `s` to `t`.
  ghost predicate Leads(s: State, t: State, p: Proc, c: Choice, n: nat) {
    t == Run(s, Turns(p, c, n))
  }

  lemma Next(s: State, t: State, p: Proc, c: Choice, n: nat)
    requires Leads(s, t, p, c, n)
    ensures Leads(s, Turn(t, p, c), p, c, n + 1)
  {
    hide Turn;
    MoreTurns(s, p, c, n, 1);
    OneTurn(t, p, c);
  }

  lemma Here(s: State, p: Proc, c: Choice)
    ensures Leads(s, s, p, c, 0)
  {
    OneTurn(s, p, c);
  }

  lemma Then(s: State, t: State, u: State, p: Proc, c: Choice, m: nat, n: nat)
    requires Leads(s, t, p, c, m) && Leads(t, u, p, c, n)
    ensures Leads(s, u, p, c, m + n)
  {
    hide Turn;
    MoreTurns(s, p, c, m, n);
  }

  lemma TypedTurn(s: State, p: Proc, c: Choice)
    requires TypeOk(s) && p in s.procs
    ensures Turn(s, p, c) == Step(s, p, c)
  {
    hide Step;
  }

  // A reachable state, and `p` at block `b` in it.
  ghost predicate Ready(s: State, p: Proc, b: Block) {
    Inv(s) && TypeOk(s) && p in s.procs && b in s.infos && !s.procs[p].Out? && s.procs[p].b == b
  }

  // ----- leaving -----

  // The read before the swap, whatever has been read before.
  lemma ReadsToLeave(s: State, p: Proc, b: Block) returns (n: nat)
    requires Ready(s, p, b) && (s.procs[p].In? || s.procs[p].Exiting? || s.procs[p].Leaving?)
    ensures n <= 3 && Leads(s, Goto(s, p, Leaving(b, s.infos[b].ctr)), p, Leave, n)
  {
    hide Inv, Leads;
    var ctr := s.infos[b].ctr;
    Here(s, p, Leave);
    if s.procs[p] == Leaving(b, ctr) {
      n := 0;
      assert s == Goto(s, p, Leaving(b, ctr));
    } else {
      n := 0;
      if s.procs[p] != Exiting(b) {
        TypedTurn(s, p, Leave);
        Next(s, s, p, Leave, 0);
        n := 1;
      }
      var t := Goto(s, p, Exiting(b));
      assert s.procs[p] == Exiting(b) ==> s == t;
      TypedTurn(t, p, Leave);
      Next(s, t, p, Leave, n);
      assert Goto(t, p, Leaving(b, ctr)) == Goto(s, p, Leaving(b, ctr));
      n := n + 1;
    }
  }

  // After unlinking and posting, the last one is out.
  lemma EndsAlone(s: State, p: Proc, b: Block) returns (n: nat, t: State)
    requires Ready(s, p, b) && Ending(s.procs[p])
    ensures 1 <= n <= 4 && Leads(s, t, p, Leave, n)
    ensures t.procs == s.procs[p := Out] && b in t.infos && t.infos == s.infos[b := t.infos[b]]
    ensures t.infos[b].ctr == Counter(s.infos[b].ctr.count, true, true) && t.infos[b].members == s.infos[b].members && t.infos[b].unlinks == 1
    ensures t.name == if s.procs[p].Unlinking? then None else s.name
    ensures t.name != Some(b)
  {
    hide Leads, EnterStep, LeaveStep, OpenStep;
    assert InfoOk(s, b, s.infos[b]) && ProcOk(s, p, s.procs[p]);
    Here(s, p, Leave);
    n := 0;
    t := s;
    if s.procs[p] == Unlinking(b) {
      t, n := GoesOn(s, t, p, n);
    }
    if t.procs[p].PostSwap? && t.procs[p].seen != t.infos[b].ctr {
      t, n := GoesOn(s, t, p, n);
    }
    if t.procs[p] == Posting(b) {
      t, n := GoesOn(s, t, p, n);
    }
    t, n := GoesOn(s, t, p, n);
  }

  lemma GoesOn(s: State, t: State, p: Proc, n: nat) returns (u: State, m: nat)
    requires Leads(s, t, p, Leave, n) && TypeOk(t) && p in t.procs
    ensures u == Step(t, p, Leave) && m == n + 1 && Leads(s, u, p, Leave, m)
  {
    hide Leads, Step;
    u, m := Step(t, p, Leave), n + 1;
    TypedTurn(t, p, Leave);
    Next(s, t, p, Leave, n);
  }

  lemma {:induction false} LeadsSafe(s: State, t: State, p: Proc, c: Choice, n: nat)
    requires Inv(s) && TypeOk(s) && p in s.procs && Leads(s, t, p, c, n)
    ensures Inv(t) && TypeOk(t) && p in t.procs
    decreases n
  {
    hide Step, Inv;
    if n == 0 {
      Here(s, p, c);
    } else {
      var u := Run(s, Turns(p, c, n - 1));
      LeadsSafe(s, u, p, c, n - 1);
      Next(s, u, p, c, n - 1);
      StepKeeps(u, p, c);
      OnlyMoves(u, p, c);
      Typed(Step(u, p, c));
      TypedTurn(u, p, c);
    }
  }

  // The swap that counts a process out.
  lemma SwapsOut(s: State, p: Proc, b: Block)
    requires Ready(s, p, b) && Accepted(s.procs[p])
    ensures
      var ctr, u := s.infos[b].ctr, Goto(s, p, Leaving(b, s.infos[b].ctr));
      var t := LeaveStep(u, p, b, ctr);
      var left := s.infos[b].(ctr := Down(ctr), members := s.infos[b].members - {p});
      && p in s.infos[b].members && s.name == Some(b) && !ctr.flag && !ctr.post && s.infos[b].unlinks == 0
      && t == if s.infos[b].members == {p}
              then Goto(Write(s, b, left.(ctr := Counter(0, true, false), ender := Some(p))), p, Unlinking(b))
              else Goto(Write(s, b, left), p, Out)
  {
    var i, u := s.infos[b], Goto(s, p, Leaving(b, s.infos[b].ctr));
    assert InfoOk(s, b, i) && ProcOk(s, p, s.procs[p]);
    assert u.infos == s.infos;
    SubsetSize(i.members, s.procs.Keys);
    assert |i.members - {p}| == |i.members| - 1;
    if i.members != {p} {
      var q :| q in i.members && q != p;
      assert q in i.members - {p};
    }
    assert u.procs[p := Out] == s.procs[p := Out] && u.procs[p := Unlinking(b)] == s.procs[p := Unlinking(b)];
  }

  // A process that is in and left alone gets out: it is counted out, and if it was the
  // last one, the block is flagged, unlinked and posted.
  lemma LeavesAlone(s: State, p: Proc, b: Block) returns (n: nat, t: State)
    requires Reachable(s) && p in s.procs && (s.procs[p] == In(b) || s.procs[p] == Exiting(b) || (s.procs[p].Leaving? && s.procs[p].b == b))
    ensures b in s.infos && 1 <= n <= 8 && t == Run(s, Turns(p, Leave, n))
    ensures t.procs == s.procs[p := Out] && b in t.infos && t.infos == s.infos[b := t.infos[b]]
    ensures t.infos[b].members == s.infos[b].members - {p} && p in s.infos[b].members
    ensures s.infos[b].members == {p} ==> t.name == None && t.infos[b].ctr == Counter(0, true, true) && t.infos[b].unlinks == 1
    ensures s.infos[b].members != {p} ==> t.name == s.name == Some(b) && t.infos[b] == s.infos[b].(ctr := Down(s.infos[b].ctr), members := s.infos[b].members - {p})
  {
    hide Reachable, Leads, Inv, EnterStep, LeaveStep, OpenStep;
    ReachableSafe(s);
    GetProc(s, p);
    n := ReadsToLeave(s, p, b);
    var u := Goto(s, p, Leaving(b, s.infos[b].ctr));
    SwapsOut(s, p, b);
    LeadsSafe(s, u, p, Leave, n);
    t, n := GoesOn(s, u, p, n);
    if s.infos[b].members == {p} {
      LeadsSafe(s, t, p, Leave, n);
      var k, w := EndsAlone(t, p, b);
      Then(s, t, w, p, Leave, n, k);
      assert t.procs[p := Out] == s.procs[p := Out] && t.infos[b := w.infos[b]] == s.infos[b := w.infos[b]];
      n, t := n + k, w;
    }
    LeadsRun(s, t, p, Leave, n);
  }

  lemma LeadsRun(s: State, t: State, p: Proc, c: Choice, n: nat)
    requires Leads(s, t, p, c, n)
    ensures t == Run(s, Turns(p, c, n))
  {}

  // ----- entering -----

  lemma GoesIn(s: State, t: State, p: Proc, n: nat) returns (u: State, m: nat)
    requires Leads(s, t, p, Stay, n) && TypeOk(t) && p in t.procs
    ensures u == Step(t, p, Stay) && m == n + 1 && Leads(s, u, p, Stay, m)
  {
    hide Leads, Step;
    u, m := Step(t, p, Stay), n + 1;
    TypedTurn(t, p, Stay);
    Next(s, t, p, Stay, n);
  }

  // The read before the swap, whatever has been read before.
  lemma ReadsToEnter(s: State, p: Proc, b: Block) returns (n: nat)
    requires Ready(s, p, b) && (s.procs[p].Opened? || s.procs[p].Entering?)
    ensures n <= 2 && Leads(s, Goto(s, p, Entering(b, s.infos[b].ctr)), p, Stay, n)
  {
    hide Inv, Leads;
    var ctr := s.infos[b].ctr;
    Here(s, p, Stay);
    n := 0;
    if s.procs[p] == Entering(b, ctr) {
      assert s == Goto(s, p, Entering(b, ctr));
    } else {
      var t := s;
      if s.procs[p] != Opened(b) {
        t, n := GoesIn(s, t, p, n);
      }
      assert t == Goto(s, p, Opened(b));
      t, n := GoesIn(s, t, p, n);
      assert t == Goto(s, p, Entering(b, ctr));
    }
  }

  // The swap that counts a process in, to an unflagged block.
  lemma SwapsIn(s: State, p: Proc, b: Block)
    requires Ready(s, p, b) && (s.procs[p].Opened? || s.procs[p].Entering?)
    ensures
      var ctr, u, i := s.infos[b].ctr, Goto(s, p, Entering(b, s.infos[b].ctr)), s.infos[b];
      var t := EnterStep(u, p, b, ctr);
      && t.procs == s.procs[p := Checking(b, Up(ctr).count)] && b in t.infos && t.infos == s.infos[b := t.infos[b]] && t.name == s.name
      && t.infos[b].ctr == Up(ctr)
      && (ctr.flag ==> t.infos[b] == i.(ctr := Up(ctr)))
      && (!ctr.flag ==> p !in i.members && Up(ctr) == Counter(ctr.count + 1, false, false) && s.name == Some(b)
                        && t.infos[b] == i.(ctr := Up(ctr), members := i.members + {p}, starter := if i.starter == None then Some(p) else i.starter))
      && (!ctr.flag && i.starter == None ==> ctr.count == 0 && !i.initialized && i.inits == 0)
      && (!ctr.flag && i.starter != None ==> ctr.count >= 1)
  {
    var i, u := s.infos[b], Goto(s, p, Entering(b, s.infos[b].ctr));
    assert InfoOk(s, b, i) && ProcOk(s, p, s.procs[p]);
    assert u.infos == s.infos && u.procs[p := Checking(b, Up(i.ctr).count)] == s.procs[p := Checking(b, Up(i.ctr).count)];
    if !i.ctr.flag {
      SubsetSize(i.members + {p}, s.procs.Keys);
      assert |i.members + {p}| == |i.members| + 1;
    }
  }

  // A process that finds an initialised block that is not flagged and is left alone gets
  // in: it is counted in, and nothing else changes.
  lemma EntersAlone(s: State, p: Proc, b: Block) returns (n: nat, t: State)
    requires Reachable(s) && p in s.procs && (s.procs[p] == Opened(b) || (s.procs[p].Entering? && s.procs[p].b == b))
    requires b in s.infos && s.infos[b].initialized && !s.infos[b].ctr.flag
    ensures 1 <= n <= 5 && t == Run(s, Turns(p, Stay, n))
    ensures t.procs == s.procs[p := In(b)] && t.name == s.name == Some(b)
    ensures t.infos == s.infos[b := s.infos[b].(ctr := Counter(s.infos[b].ctr.count + 1, false, false), members := s.infos[b].members + {p})]
    ensures p !in s.infos[b].members
  {
    hide Reachable, Leads, Inv, EnterStep, LeaveStep, OpenStep;
    ReachableSafe(s);
    GetProc(s, p);
    n := ReadsToEnter(s, p, b);
    var u := Goto(s, p, Entering(b, s.infos[b].ctr));
    SwapsIn(s, p, b);
    t, n := GoesIn(s, u, p, n);
    t, n := GoesIn(s, t, p, n);
    t, n := GoesIn(s, t, p, n);
    assert t.procs == s.procs[p := In(b)];
    LeadsRun(s, t, p, Stay, n);
  }

  // The first one into a block initialises it.
  lemma StartsAlone(s: State, p: Proc, b: Block) returns (n: nat, t: State)
    requires Reachable(s) && p in s.procs && (s.procs[p] == Opened(b) || (s.procs[p].Entering? && s.procs[p].b == b))
    requires b in s.infos && s.infos[b].starter == None
    ensures 1 <= n <= 7 && t == Run(s, Turns(p, Stay, n))
    ensures t.procs == s.procs[p := In(b)] && t.name == s.name == Some(b)
    ensures b in t.infos && t.infos == s.infos[b := t.infos[b]]
    ensures t.infos[b].initialized && t.infos[b].inits == 1 && t.infos[b].ctr == Counter(1, false, false) && t.infos[b].starter == Some(p) && t.infos[b].members == {p}
  {
    hide Reachable, Leads, Inv, EnterStep, LeaveStep, OpenStep;
    ReachableSafe(s);
    GetProc(s, p);
    n := ReadsToEnter(s, p, b);
    var u := Goto(s, p, Entering(b, s.infos[b].ctr));
    SwapsIn(s, p, b);
    t, n := GoesIn(s, u, p, n);
    t, n := GoesIn(s, t, p, n);
    t, n := GoesIn(s, t, p, n);
    t, n := GoesIn(s, t, p, n);
    t, n := GoesIn(s, t, p, n);
    assert t.procs == s.procs[p := In(b)];
    LeadsRun(s, t, p, Stay, n);
  }

  // A process that comes too late gets out again once the block has been posted, and is
  // counted in no block.
  lemma ComesTooLate(s: State, p: Proc, b: Block) returns (n: nat, t: State)
    requires Reachable(s) && p in s.procs && (s.procs[p] == Opened(b) || s.procs[p] == Waiting(b) || (s.procs[p].Entering? && s.procs[p].b == b))
    requires b in s.infos && s.infos[b].ctr.post
    ensures 1 <= n <= 5 && t == Run(s, Turns(p, Stay, n))
    ensures t.procs == s.procs[p := Out] && t.name == s.name != Some(b)
    ensures b in t.infos && t.infos == s.infos[b := s.infos[b].(ctr := t.infos[b].ctr)] && t.infos[b].ctr.flag && t.infos[b].ctr.post
  {
    hide Reachable, Leads, Inv, EnterStep, LeaveStep, OpenStep;
    ReachableSafe(s);
    GetProc(s, p);
    if s.procs[p] == Waiting(b) {
      Here(s, p, Stay);
      t, n := GoesIn(s, s, p, 0);
      assert s.infos[b := s.infos[b]] == s.infos;
    } else {
      n := ReadsToEnter(s, p, b);
      var u := Goto(s, p, Entering(b, s.infos[b].ctr));
      SwapsIn(s, p, b);
      t, n := GoesIn(s, u, p, n);
      t, n := GoesIn(s, t, p, n);
      t, n := GoesIn(s, t, p, n);
    }
    assert t.procs == s.procs[p := Out];
    LeadsRun(s, t, p, Stay, n);
  }

  // With no block there, a process creates one and gets in.
  lemma CreatesAlone(s: State, p: Proc) returns (n: nat, t: State)
    requires Reachable(s) && p in s.procs && s.procs[p] == Out && s.name == None
    ensures 1 <= n <= 8 && t == Run(s, Turns(p, Stay, n))
    ensures s.nextBlock !in s.infos && t.procs == s.procs[p := In(s.nextBlock)] && t.name == Some(s.nextBlock)
    ensures s.nextBlock in t.infos && t.infos == s.infos[s.nextBlock := t.infos[s.nextBlock]]
    ensures var i := t.infos[s.nextBlock]; i.initialized && i.inits == 1 && i.ctr == Counter(1, false, false) && i.members == {p}
  {
    hide Reachable, Leads, Inv;
    ReachableSafe(s);
    Here(s, p, Stay);
    var u, m := GoesIn(s, s, p, 0);
    var b := s.nextBlock;
    NewBlock(s);
    ReachesOn(s, u, p, Stay, m);
    var k, w := StartsAlone(u, p, b);
    OneRun(u, w, p, Stay, k);
    Then(s, u, w, p, Stay, m, k);
    n, t := m + k, w;
    assert t.procs == s.procs[p := In(b)];
    LeadsRun(s, t, p, Stay, n);
  }

  // A process that attaches when there is an initialised block that is not flagged opens
  // that block, and gets in.
  lemma FindsAlone(s: State, p: Proc, b: Block) returns (n: nat, t: State)
    requires Reachable(s) && p in s.procs && s.procs[p] == Out && s.name == Some(b)
    requires b in s.infos && s.infos[b].initialized && !s.infos[b].ctr.flag
    ensures 1 <= n <= 6 && t == Run(s, Turns(p, Stay, n))
    ensures t.procs == s.procs[p := In(b)] && t.name == s.name
    ensures t.infos == s.infos[b := s.infos[b].(ctr := Counter(s.infos[b].ctr.count + 1, false, false), members := s.infos[b].members + {p})]
  {
    hide Reachable, Leads, Inv;
    ReachableSafe(s);
    Here(s, p, Stay);
    var u, m := GoesIn(s, s, p, 0);
    ReachesOn(s, u, p, Stay, m);
    var k, w := EntersAlone(u, p, b);
    OneRun(u, w, p, Stay, k);
    Then(s, u, w, p, Stay, m, k);
    n, t := m + k, w;
    assert t.procs == s.procs[p := In(b)];
    LeadsRun(s, t, p, Stay, n);
  }

  lemma OneRun(s: State, t: State, p: Proc, c: Choice, n: nat)
    requires t == Run(s, Turns(p, c, n))
    ensures Leads(s, t, p, c, n)
  {}

  lemma NewBlock(s: State)
    requires Inv(s)
    ensures s.nextBlock !in s.infos
  {
    if s.nextBlock in s.infos {
      GetInfo(s, s.nextBlock);
    }
  }

  lemma ReachesOn(s: State, t: State, p: Proc, c: Choice, n: nat)
    requires Reachable(s) && Leads(s, t, p, c, n)
    ensures Reachable(t)
  {
    hide Init, Turn, Run;
    var s0, sched :| Init(s0) && s == Run(s0, sched);
    RunConcat(s0, sched, Turns(p, c, n));
    assert t == Run(s0, sched + Turns(p, c, n));
  }
}
