/** Every step keeps the invariant of the shared info block, and what follows for
    every schedule. */
module InfoSafety {
  import opened Counters
  import opened Options
  import opened InfoProtocol

  lemma Typed(s: State)
    requires Inv(s)
    ensures TypeOk(s)
  {
    forall p | p in s.procs && !s.procs[p].Out? ensures s.procs[p].b in s.infos {
      assert ProcOk(s, p, s.procs[p]);
    }
  }

  lemma SubsetSize(a: set<Proc>, b: set<Proc>)
    requires a <= b
    ensures |a| <= |b|
  {
    if a != {} {
      var x :| x in a;
      SubsetSize(a - {x}, b - {x});
    }
  }

  // A step of `p` that rewrites at most block `b`.
  ghost predicate Touches(s: State, t: State, p: Proc, b: Block) {
    && p in s.procs && p in t.procs && t.procs == s.procs[p := t.procs[p]]
    && b in t.infos && t.infos == s.infos[b := t.infos[b]] && s.nextBlock <= t.nextBlock
    && (s.procs[p].Out? || s.procs[p].b == b) && (t.procs[p].Out? || t.procs[p].b == b)
    && (t.name == s.name || (s.name == None && t.name == Some(b)) || (s.name == Some(b) && t.name == None))
  }

  lemma OtherBlock(s: State, t: State, p: Proc, b: Block, x: Block)
    requires Touches(s, t, p, b) && x in s.infos && x != b && InfoOk(s, x, s.infos[x])
    ensures InfoOk(t, x, t.infos[x])
  {
    assert t.procs.Keys == s.procs.Keys;
  }

  lemma Assemble(s: State, t: State, p: Proc, b: Block)
    requires Inv(s) && Touches(s, t, p, b)
    requires t.name.Some? ==> t.name.value in t.infos
    requires InfoOk(t, b, t.infos[b])
    requires forall q :: q in t.procs && (q == p || At(s.procs, q, b)) ==> ProcOk(t, q, t.procs[q])
    ensures Inv(t)
  {
    hide InfoOk;
    assert t.procs.Keys == s.procs.Keys;
    forall x | x in t.infos ensures InfoOk(t, x, t.infos[x]) {
      if x != b {
        OtherBlock(s, t, p, b, x);
      }
    }
    forall q | q in t.procs ensures ProcOk(t, q, t.procs[q]) {
      assert ProcOk(s, q, s.procs[q]);
    }
  }

  // Only the acting process moves.
  lemma MoveKeeps(s: State, p: Proc, b: Block, pc: Pc)
    requires Inv(s) && p in s.procs && b in s.infos
    requires !s.procs[p].Out? && s.procs[p].b == b && (pc.Out? || pc.b == b)
    requires ProcOk(s, p, pc)
    requires InfoOk(Goto(s, p, pc), b, s.infos[b])
    ensures Inv(Goto(s, p, pc))
  {
    hide InfoOk;
    var t := Goto(s, p, pc);
    assert t.infos == s.infos[b := t.infos[b]];
    forall q | q in t.procs && (q == p || At(s.procs, q, b)) ensures ProcOk(t, q, t.procs[q]) {
      assert ProcOk(s, q, s.procs[q]);
    }
    Assemble(s, t, p, b);
  }

  lemma OpenKeeps(s: State, p: Proc)
    requires Inv(s) && p in s.procs && s.procs[p] == Out
    ensures Inv(OpenStep(s, p))
  {
    var t := OpenStep(s, p);
    var b := t.procs[p].b;
    assert t.procs.Keys == s.procs.Keys;
    if s.name.Some? {
      assert InfoOk(s, b, s.infos[b]);
    }
    assert t.infos == s.infos[b := t.infos[b]];
    forall q | q in t.procs && (q == p || At(s.procs, q, b)) ensures ProcOk(t, q, t.procs[q]) {
      assert ProcOk(s, q, s.procs[q]);
    }
    Assemble(s, t, p, b);
  }

  // A late enterer is not counted among the members; an early one finds the
  // block unflagged, and is the first exactly when the count becomes one.
  lemma EnterKeeps(s: State, p: Proc, b: Block, seen: Counter)
    requires Inv(s) && p in s.procs && s.procs[p] == Entering(b, seen) && b in s.infos && s.infos[b].ctr == seen
    ensures Inv(EnterStep(s, p, b, seen))
  {
    hide InfoOk, ProcOk;
    var t := EnterStep(s, p, b, seen);
    assert InfoOk(s, b, s.infos[b]) && ProcOk(s, p, s.procs[p]);
    EnterInfo(s, t, p, b, seen);
    forall q | q in t.procs && (q == p || At(s.procs, q, b)) ensures ProcOk(t, q, t.procs[q]) {
      assert ProcOk(s, q, s.procs[q]);
      EnterProc(s, t, p, b, seen, q);
    }
    EnterTouches(s, t, p, b, seen);
    Assemble(s, t, p, b);
  }

  lemma EnterTouches(s: State, t: State, p: Proc, b: Block, seen: Counter)
    requires p in s.procs && s.procs[p] == Entering(b, seen) && b in s.infos && s.infos[b].ctr == seen && t == EnterStep(s, p, b, seen)
    requires InfoOk(s, b, s.infos[b]) && ProcOk(s, p, s.procs[p]) && (s.name.Some? ==> s.name.value in s.infos)
    ensures Touches(s, t, p, b) && (t.name.Some? ==> t.name.value in t.infos)
  {}

  lemma EnterInfo(s: State, t: State, p: Proc, b: Block, seen: Counter)
    requires p in s.procs && s.procs[p] == Entering(b, seen) && b in s.infos && s.infos[b].ctr == seen && t == EnterStep(s, p, b, seen)
    requires InfoOk(s, b, s.infos[b]) && ProcOk(s, p, s.procs[p]) && |s.procs.Keys| < COUNT_WRAP
    ensures InfoOk(t, b, t.infos[b])
  {
    assert t.procs.Keys == s.procs.Keys;
    SubsetSize(s.infos[b].members + {p}, s.procs.Keys);
    assert |s.infos[b].members + {p}| == |s.infos[b].members| + 1;
  }

  lemma EnterProc(s: State, t: State, p: Proc, b: Block, seen: Counter, q: Proc)
    requires p in s.procs && s.procs[p] == Entering(b, seen) && b in s.infos && s.infos[b].ctr == seen && t == EnterStep(s, p, b, seen)
    requires InfoOk(s, b, s.infos[b]) && ProcOk(s, p, s.procs[p]) && |s.procs.Keys| < COUNT_WRAP
    requires q in s.procs && ProcOk(s, q, s.procs[q])
    ensures ProcOk(t, q, t.procs[q])
  {
    SubsetSize(s.infos[b].members + {p}, s.procs.Keys);
    assert |s.infos[b].members + {p}| == |s.infos[b].members| + 1;
  }

  // What the check of the flag leads to.
  function Checked(i: Info, b: Block, count: nat): Pc {
    if i.ctr.flag then Waiting(b) else if count == 1 then Resetting(b) else Ready(b)
  }

  lemma CheckKeeps(s: State, p: Proc, b: Block, count: nat)
    requires Inv(s) && p in s.procs && s.procs[p] == Checking(b, count) && b in s.infos
    ensures Inv(Goto(s, p, if s.infos[b].ctr.flag then Waiting(b) else if count == 1 then Resetting(b) else Ready(b)))
  {
    hide InfoOk, ProcOk;
    assert InfoOk(s, b, s.infos[b]) && ProcOk(s, p, s.procs[p]);
    CheckProc(s, p, b, count);
    CheckInfo(s, p, b, count);
    MoveKeeps(s, p, b, Checked(s.infos[b], b, count));
  }

  lemma CheckProc(s: State, p: Proc, b: Block, count: nat)
    requires b in s.infos && ProcOk(s, p, Checking(b, count))
    ensures ProcOk(s, p, Checked(s.infos[b], b, count))
  {}

  lemma CheckInfo(s: State, p: Proc, b: Block, count: nat)
    requires p in s.procs && s.procs[p] == Checking(b, count) && b in s.infos
    requires InfoOk(s, b, s.infos[b]) && ProcOk(s, p, s.procs[p])
    ensures InfoOk(Goto(s, p, Checked(s.infos[b], b, count)), b, s.infos[b])
  {
    assert Goto(s, p, Checked(s.infos[b], b, count)).procs.Keys == s.procs.Keys;
  }

  // The reads, tests and failed compare-and-swaps.
  ghost predicate Plain(s: State, p: Proc, pc: Pc) {
    && p in s.procs && !s.procs[p].Out? && s.procs[p].b in s.infos
    && var b := s.procs[p].b;
       match s.procs[p]
       case Opened(_) => pc == Entering(b, s.infos[b].ctr)
       case Entering(_, _) => pc == Opened(b)
       case Waiting(_) => pc == Out
       case Ready(_) => pc == In(b) && s.infos[b].initialized
       case In(_) => pc == Exiting(b)
       case Exiting(_) => pc == Leaving(b, s.infos[b].ctr)
       case Leaving(_, _) => pc == Exiting(b)
       case Posting(_) => pc == PostSwap(b, s.infos[b].ctr)
       case PostSwap(_, _) => pc == Posting(b)
       case _ => false
  }

  lemma PlainKeeps(s: State, p: Proc, pc: Pc)
    requires Inv(s) && Plain(s, p, pc)
    ensures Inv(Goto(s, p, pc))
  {
    hide InfoOk, ProcOk;
    var b := s.procs[p].b;
    assert InfoOk(s, b, s.infos[b]) && ProcOk(s, p, s.procs[p]);
    PlainProc(s, p, pc);
    PlainInfo(s, p, pc);
    MoveKeeps(s, p, b, pc);
  }

  lemma PlainProc(s: State, p: Proc, pc: Pc)
    requires Plain(s, p, pc) && ProcOk(s, p, s.procs[p])
    ensures ProcOk(s, p, pc)
  {}

  lemma PlainInfo(s: State, p: Proc, pc: Pc)
    requires Plain(s, p, pc) && InfoOk(s, s.procs[p].b, s.infos[s.procs[p].b]) && ProcOk(s, p, s.procs[p])
    ensures InfoOk(Goto(s, p, pc), s.procs[p].b, s.infos[s.procs[p].b])
  {
    assert Goto(s, p, pc).procs.Keys == s.procs.Keys;
  }

  lemma ResetKeeps(s: State, p: Proc, b: Block)
    requires Inv(s) && p in s.procs && s.procs[p] == Resetting(b) && b in s.infos
    ensures Inv(Goto(Write(s, b, s.infos[b].(inits := s.infos[b].inits + 1)), p, Announcing(b)))
  {
    hide InfoOk, ProcOk;
    var t := Goto(Write(s, b, s.infos[b].(inits := s.infos[b].inits + 1)), p, Announcing(b));
    assert InfoOk(s, b, s.infos[b]) && ProcOk(s, p, s.procs[p]);
    ResetInfo(s, t, p, b);
    forall q | q in t.procs && (q == p || At(s.procs, q, b)) ensures ProcOk(t, q, t.procs[q]) {
      assert ProcOk(s, q, s.procs[q]);
      ResetProc(s, t, p, b, q);
    }
    ResetTouches(s, t, p, b);
    Assemble(s, t, p, b);
  }

  lemma ResetTouches(s: State, t: State, p: Proc, b: Block)
    requires p in s.procs && s.procs[p] == Resetting(b) && b in s.infos && t == Goto(Write(s, b, s.infos[b].(inits := s.infos[b].inits + 1)), p, Announcing(b))
    requires InfoOk(s, b, s.infos[b]) && ProcOk(s, p, s.procs[p]) && (s.name.Some? ==> s.name.value in s.infos)
    ensures Touches(s, t, p, b) && (t.name.Some? ==> t.name.value in t.infos)
  {}

  lemma ResetInfo(s: State, t: State, p: Proc, b: Block)
    requires p in s.procs && s.procs[p] == Resetting(b) && b in s.infos && t == Goto(Write(s, b, s.infos[b].(inits := s.infos[b].inits + 1)), p, Announcing(b))
    requires InfoOk(s, b, s.infos[b]) && ProcOk(s, p, s.procs[p]) && |s.procs.Keys| < COUNT_WRAP
    ensures InfoOk(t, b, t.infos[b])
  {
    assert t.procs.Keys == s.procs.Keys;
  }

  lemma ResetProc(s: State, t: State, p: Proc, b: Block, q: Proc)
    requires p in s.procs && s.procs[p] == Resetting(b) && b in s.infos && t == Goto(Write(s, b, s.infos[b].(inits := s.infos[b].inits + 1)), p, Announcing(b))
    requires InfoOk(s, b, s.infos[b]) && ProcOk(s, p, s.procs[p]) && |s.procs.Keys| < COUNT_WRAP
    requires q in s.procs && ProcOk(s, q, s.procs[q])
    ensures ProcOk(t, q, t.procs[q])
  {
  }

  lemma AnnounceKeeps(s: State, p: Proc, b: Block)
    requires Inv(s) && p in s.procs && s.procs[p] == Announcing(b) && b in s.infos
    ensures Inv(Goto(Write(s, b, s.infos[b].(initialized := true)), p, Ready(b)))
  {
    var t := Goto(Write(s, b, s.infos[b].(initialized := true)), p, Ready(b));
    assert InfoOk(s, b, s.infos[b]) && ProcOk(s, p, s.procs[p]);
    assert t.procs.Keys == s.procs.Keys;
    forall q | q in t.procs && (q == p || At(s.procs, q, b)) ensures ProcOk(t, q, t.procs[q]) {
      assert ProcOk(s, q, s.procs[q]);
    }
    Assemble(s, t, p, b);
  }

  // The count reaches zero exactly when the leaver is the last member.
  lemma LeaveKeeps(s: State, p: Proc, b: Block, seen: Counter)
    requires Inv(s) && p in s.procs && s.procs[p] == Leaving(b, seen) && b in s.infos && s.infos[b].ctr == seen
    ensures Inv(LeaveStep(s, p, b, seen))
  {
    hide InfoOk, ProcOk;
    var t := LeaveStep(s, p, b, seen);
    assert InfoOk(s, b, s.infos[b]) && ProcOk(s, p, s.procs[p]);
    LeaveInfo(s, t, p, b, seen);
    forall q | q in t.procs && (q == p || At(s.procs, q, b)) ensures ProcOk(t, q, t.procs[q]) {
      assert ProcOk(s, q, s.procs[q]);
      LeaveProc(s, t, p, b, seen, q);
    }
    LeaveTouches(s, t, p, b, seen);
    Assemble(s, t, p, b);
  }

  lemma LeaveTouches(s: State, t: State, p: Proc, b: Block, seen: Counter)
    requires p in s.procs && s.procs[p] == Leaving(b, seen) && b in s.infos && s.infos[b].ctr == seen && t == LeaveStep(s, p, b, seen)
    requires InfoOk(s, b, s.infos[b]) && ProcOk(s, p, s.procs[p]) && (s.name.Some? ==> s.name.value in s.infos)
    ensures Touches(s, t, p, b) && (t.name.Some? ==> t.name.value in t.infos)
  {}

  lemma LeaveInfo(s: State, t: State, p: Proc, b: Block, seen: Counter)
    requires p in s.procs && s.procs[p] == Leaving(b, seen) && b in s.infos && s.infos[b].ctr == seen && t == LeaveStep(s, p, b, seen)
    requires InfoOk(s, b, s.infos[b]) && ProcOk(s, p, s.procs[p]) && |s.procs.Keys| < COUNT_WRAP
    ensures InfoOk(t, b, t.infos[b])
  {
    assert t.procs.Keys == s.procs.Keys;
    SubsetSize(s.infos[b].members, s.procs.Keys);
    assert |s.infos[b].members - {p}| == |s.infos[b].members| - 1;
  }

  lemma LeaveProc(s: State, t: State, p: Proc, b: Block, seen: Counter, q: Proc)
    requires p in s.procs && s.procs[p] == Leaving(b, seen) && b in s.infos && s.infos[b].ctr == seen && t == LeaveStep(s, p, b, seen)
    requires InfoOk(s, b, s.infos[b]) && ProcOk(s, p, s.procs[p]) && |s.procs.Keys| < COUNT_WRAP
    requires q in s.procs && ProcOk(s, q, s.procs[q])
    ensures ProcOk(t, q, t.procs[q])
  {
    SubsetSize(s.infos[b].members, s.procs.Keys);
    assert |s.infos[b].members - {p}| == |s.infos[b].members| - 1;
  }

  lemma UnlinkKeeps(s: State, p: Proc, b: Block)
    requires Inv(s) && p in s.procs && s.procs[p] == Unlinking(b) && b in s.infos
    ensures Inv(Goto(Write(s.(name := None), b, s.infos[b].(unlinks := s.infos[b].unlinks + 1)), p, Posting(b)))
  {
    var t := Goto(Write(s.(name := None), b, s.infos[b].(unlinks := s.infos[b].unlinks + 1)), p, Posting(b));
    assert InfoOk(s, b, s.infos[b]) && ProcOk(s, p, s.procs[p]);
    assert t.procs.Keys == s.procs.Keys;
    forall q | q in t.procs && (q == p || At(s.procs, q, b)) ensures ProcOk(t, q, t.procs[q]) {
      assert ProcOk(s, q, s.procs[q]);
    }
    Assemble(s, t, p, b);
  }

  lemma PostKeeps(s: State, p: Proc, b: Block, seen: Counter)
    requires Inv(s) && p in s.procs && s.procs[p] == PostSwap(b, seen) && b in s.infos && s.infos[b].ctr == seen
    ensures Inv(Goto(Write(s, b, s.infos[b].(ctr := seen.(post := true))), p, Out))
  {
    var t := Goto(Write(s, b, s.infos[b].(ctr := seen.(post := true))), p, Out);
    assert InfoOk(s, b, s.infos[b]) && ProcOk(s, p, s.procs[p]);
    assert t.procs.Keys == s.procs.Keys;
    forall q | q in t.procs && (q == p || At(s.procs, q, b)) ensures ProcOk(t, q, t.procs[q]) {
      assert ProcOk(s, q, s.procs[q]);
    }
    Assemble(s, t, p, b);
  }

  lemma StepKeeps(s: State, p: Proc, c: Choice)
    requires Inv(s) && TypeOk(s) && p in s.procs
    ensures Inv(Step(s, p, c))
  {
    hide Inv;
    match s.procs[p]
    case Out => OpenKeeps(s, p);
    case Opened(b) => PlainKeeps(s, p, Entering(b, s.infos[b].ctr));
    case Entering(b, seen) => if s.infos[b].ctr == seen { EnterKeeps(s, p, b, seen); } else { PlainKeeps(s, p, Opened(b)); }
    case Checking(b, count) => CheckKeeps(s, p, b, count);
    case Waiting(b) => if s.infos[b].ctr.post { PlainKeeps(s, p, Out); }
    case Resetting(b) => ResetKeeps(s, p, b);
    case Announcing(b) => AnnounceKeeps(s, p, b);
    case Ready(b) => if s.infos[b].initialized { PlainKeeps(s, p, In(b)); }
    case In(b) => if c == Leave { PlainKeeps(s, p, Exiting(b)); }
    case Exiting(b) => PlainKeeps(s, p, Leaving(b, s.infos[b].ctr));
    case Leaving(b, seen) => if s.infos[b].ctr == seen { LeaveKeeps(s, p, b, seen); } else { PlainKeeps(s, p, Exiting(b)); }
    case Unlinking(b) => UnlinkKeeps(s, p, b);
    case Posting(b) => PlainKeeps(s, p, PostSwap(b, s.infos[b].ctr));
    case PostSwap(b, seen) => if s.infos[b].ctr == seen { PostKeeps(s, p, b, seen); } else { PlainKeeps(s, p, Posting(b)); }
  }
}
