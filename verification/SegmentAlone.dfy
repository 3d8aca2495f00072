/** What an operation attains when its process is left to run. */
module SegmentAlone {
  import opened Options
  import opened SegmentModel
  import opened SegmentInvariant
  import opened SegmentFrames
  import opened SegmentLists
  import opened SegmentSafety
  import opened SegmentAccounts
  import opened SegmentTheorems
  import opened SegmentLocks
  import opened SegmentRank
  import opened DirectiveFrames
  import opened DirectiveSteps
  import opened DirectiveDeeds

  // ----- one process running -----

  // `n` turns of one process in a row.
  function Turns(p: Proc, c: Choice, n: nat): (sched: seq<(Proc, Choice)>)
    ensures |sched| == n && forall i :: 0 <= i < n ==> sched[i] == (p, c)
  {
    seq(n, _ => (p, c))
  }

  // The same after a first choice.
  function Chosen(p: Proc, c: Choice, n: nat): seq<(Proc, Choice)> {
    [(p, c)] + Turns(p, Lock, n)
  }

  lemma {:induction false} RunConcat(s: State, a: seq<(Proc, Choice)>, b: seq<(Proc, Choice)>)
    ensures Run(s, a + b) == Run(Run(s, a), b)
    decreases |b|
  {
    hide Turn;
    if b == [] {
      assert a + b == a;
    } else {
      var k := |b| - 1;
      assert (a + b)[..|a| + k] == a + b[..k];
      RunConcat(s, a, b[..k]);
    }
  }

  lemma RunOne(s: State, p: Proc, c: Choice)
    ensures Run(s, [(p, c)]) == Turn(s, p, c)
  {
    hide Turn;
    var one := [(p, c)];
    assert one[..0] == [];
    assert Run(s, []) == s;
  }

  // `n` steps of `p` lead from `s` to `t`, in the middle of an operation all the way.
  ghost predicate Works(s: State, t: State, p: Proc, n: nat)
    decreases n
  {
    if n == 0 then t == s
    else p in s.procs && TypeOk(s) && s.procs[p].pc != Idle && Works(Step(s, p, Lock), t, p, n - 1)
  }

  lemma {:induction false} WorksRun(s: State, t: State, p: Proc, n: nat)
    requires Works(s, t, p, n)
    ensures t == Run(s, Turns(p, Lock, n))
    decreases n
  {
    hide Step, TypeOk, Turn;
    if n == 0 {
      assert Turns(p, Lock, 0) == [];
    } else {
      var u := Step(s, p, Lock);
      WorksRun(u, t, p, n - 1);
      RunOne(s, p, Lock);
      assert Turns(p, Lock, n) == [(p, Lock)] + Turns(p, Lock, n - 1);
      RunConcat(s, [(p, Lock)], Turns(p, Lock, n - 1));
      TurnIs(s, p, Lock);
    }
  }

  lemma TurnIs(s: State, p: Proc, c: Choice)
    requires p in s.procs && TypeOk(s)
    ensures Turn(s, p, c) == Step(s, p, c)
  {
    hide Step, TypeOk;
  }

  lemma ChosenRun(s: State, t: State, p: Proc, c: Choice, n: nat)
    requires p in s.procs && TypeOk(s) && Works(Step(s, p, c), t, p, n)
    ensures t == Run(s, Chosen(p, c, n))
  {
    hide Step, TypeOk, Turn, Works;
    WorksRun(Step(s, p, c), t, p, n);
    RunOne(s, p, c);
    RunConcat(s, [(p, c)], Turns(p, Lock, n));
    TurnIs(s, p, c);
  }

  // A process in the middle of an operation, that can have the lock.
  ghost predicate Running(s: State, p: Proc, free: int) {
    Inv(s) && TypeOk(s) && p in s.procs && CanLock(s, p) && Numbered(s, p, free)
  }

  // Left to run it ends the operation; what every step keeps then holds.
  lemma {:induction false} GetsDone(s: State, p: Proc, free: int, keeps: State -> bool) returns (n: nat, t: State)
    requires Running(s, p, free) && keeps(s)
    requires forall u :: keeps(u) && Running(u, p, free) && u.procs[p].pc != Idle ==> keeps(Step(u, p, Lock))
    ensures Works(s, t, p, n) && Running(t, p, free) && t.procs[p].pc == Idle && keeps(t)
    ensures n <= Rank(s, p, free)
    decreases Rank(s, p, free)
  {
    hide Step, Inv, TypeOk, Numbered, Rank;
    RankNat(s, p, free);
    if s.procs[p].pc == Idle {
      n, t := 0, s;
    } else {
      RankDrops(s, p, free);
      n, t := GetsDone(Step(s, p, Lock), p, free, keeps);
      n := n + 1;
    }
  }

  // Every operation ends, in a bounded number of turns, when its process runs alone and
  // the lock is free or its own; one that creates a segment needs a free number.
  lemma EndsAlone(s: State, p: Proc, free: int) returns (n: nat)
    requires Reachable(s) && p in s.procs && CanLock(s, p) && Numbered(s, p, free)
    ensures var t := Run(s, Turns(p, Lock, n)); p in t.procs && t.procs[p].pc == Idle
    ensures n <= 22 + SEG_MAX + 2 + 5 * |s.fchain| + 26
  {
    hide Reachable, Inv, TypeOk, Accounted, Works, Numbered, Step, Rank;
    ReachableSafe(s);
    var t;
    n, t := GetsDone(s, p, free, (_: State) => true);
    WorksRun(s, t, p, n);
    RankBound(s, p, free);
  }

  lemma RankBound(s: State, p: Proc, free: int)
    requires Inv(s) && p in s.procs && Numbered(s, p, free)
    ensures Rank(s, p, free) <= 22 + SEG_MAX + 2 + 5 * |s.fchain| + 26
  {
    hide Names, Counts, Places, Tables, Held, LedgerOk, LockOk, ListOk;
    GetProc(s, p);
    FewUntracked(s.meta, s.fchain, s.procs[p].table);
  }

  lemma {:induction false} FewUntracked(meta: map<Obj, Meta>, c: seq<Obj>, table: map<int, Obj>)
    ensures |Untracked(meta, c, table)| <= |c|
    decreases |c|
  {
    if c == [] {
      assert Untracked(meta, c, table) == {};
    } else {
      var r := c[1..];
      FewUntracked(meta, r, table);
      assert Untracked(meta, c, table) <= Untracked(meta, r, table) + {c[0]};
      Fewer(Untracked(meta, c, table), Untracked(meta, r, table) + {c[0]});
    }
  }

  // ----- the lock is as it was -----

  // The same locks of its own all through an operation, unless an append is refused.
  lemma OwnStays(s: State, p: Proc, own: map<Proc, nat>)
    requires Inv(s) && TypeOk(s) && p in s.procs && s.procs[p].pc != Idle && LocksOk(s, own)
    requires s.procs[p].pc.Adding? && s.procs[p].pc.a == AddCheck ==> s.numShared < s.maxSegs
    ensures LocksOk(Step(s, p, Lock), own)
  {
    hide Inv, TypeOk, Step, LocksOk;
    SameOwners(s, own);
    LocksKeep(s, p, Lock, own);
    assert own[p := own[p]] == own;
  }

  lemma LockBack(s: State, t: State, p: Proc, own: map<Proc, nat>)
    requires LocksOk(s, own) && LocksOk(t, own) && LockOk(s) && LockOk(t) && CanLock(s, p) && CanLock(t, p)
    requires p in s.procs && p in t.procs && s.procs[p].pc == Idle && t.procs[p].pc == Idle
    ensures t.owner == s.owner && t.level == s.level
  {}

  lemma OwnThere(s: State) returns (own: map<Proc, nat>)
    requires Reachable(s)
    ensures LocksOk(s, own)
  {
    hide Init, Run, LocksOk;
    var s0, sched :| Init(s0) && s == Run(s0, sched);
    LocksMatch(s0, sched);
    own := OwnRun(s0, sched, NoLocks(s0.procs.Keys));
  }

  // ----- creating a segment -----

  // Segment `o` has been created and appended since state `s`.
  ghost predicate Created(s: State, t: State, p: Proc, o: Obj, size: nat) {
    && o !in s.meta && o in t.meta && t.meta[o].size == size && !t.meta[o].invalid
    && t.fchain == s.fchain + [o] && t.total == s.total + size && t.rev == NextRev(s.rev)
    && p in t.procs && InTable(t.procs[p].table, t.meta[o].num, o)
  }

  // Segment `o` is under way.
  ghost predicate Underway(s: State, u: State, o: Obj, size: nat) {
    && o !in s.meta && o in u.meta && u.meta[o].size == size && u.total == s.total + size
    && u.meta[o].num !in s.names && u.names == s.names[u.meta[o].num := o]
  }

  // Past the change of the revision.
  predicate Announced(b: Pc) {
    b == Idle || (b.Adding? && b.a == AddUnlock)
  }

  ghost predicate Creating(s: State, u: State, p: Proc, size: nat) {
    && p in u.procs && u.maxSegs == s.maxSegs && u.maxSize == s.maxSize
    && (if Announced(Base(u.procs[p].pc)) then u.rev == NextRev(s.rev) else u.rev == s.rev)
    && match Base(u.procs[p].pc)
       case Reserving(_, z) => z == size && u.meta == s.meta && u.names == s.names && u.fchain == s.fchain && u.numShared == s.numShared && u.total == s.total
       case Choosing(o, _, z) => z == size && u.meta == s.meta && u.names == s.names && u.fchain == s.fchain && u.numShared == s.numShared && u.total == s.total + size
       case Building(o, _) => Underway(s, u, o, size) && u.fchain == s.fchain && u.numShared == s.numShared
       case Adding(o, a) =>
         && Underway(s, u, o, size) && InTable(u.procs[p].table, u.meta[o].num, o)
         && (a == AddLock || a == AddCheck ==> u.numShared == s.numShared)
         && u.fchain == (if a == AddLock || a == AddCheck || a == AddLink then s.fchain else s.fchain + [o])
         && (a == AddLast || a == AddBump || a == AddUnlock ==> !u.meta[o].invalid)
       case Idle => u.procs[p].pc == Idle && exists o :: Created(s, u, p, o, size)
       case _ => false
  }

  // What a step of an append does to the segment and to the numbers of the info block.
  lemma AddParts(s: State, p: Proc, o: Obj, a: AddStage)
    requires TypeOk(s) && p in s.procs && s.procs[p].pc == Adding(o, a) && o in s.meta
    ensures
      var t := AddStep(s, p, o, a);
      && t.maxSegs == s.maxSegs && t.maxSize == s.maxSize && t.total == s.total && t.names == s.names
      && o in t.meta && t.meta[o].size == s.meta[o].size && t.meta[o].num == s.meta[o].num
      && t.meta[o].invalid == (if a == AddValid then false else s.meta[o].invalid)
      && (a == AddLock ==> t.numShared == s.numShared) && t.rev == (if a == AddBump then NextRev(s.rev) else s.rev)
      && (a != AddLink ==> t.fchain == s.fchain)
  {
    hide TypeOk, AddLinkStep, Release;
    if a == AddLink {
      LinkParts(s, p, o);
    } else if a == AddUnlock {
      ReleaseParts(s, p);
    }
  }

  lemma ReleaseParts(s: State, p: Proc)
    ensures var t := Release(s, p); t == s.(owner := t.owner, level := t.level)
  {}

  lemma LinkParts(s: State, p: Proc, o: Obj)
    requires TypeOk(s) && p in s.procs && o in s.meta
    ensures
      var t := AddLinkStep(s, p, o);
      && t.maxSegs == s.maxSegs && t.maxSize == s.maxSize && t.total == s.total && t.names == s.names
      && o in t.meta && t.meta[o].size == s.meta[o].size && t.meta[o].num == s.meta[o].num && t.meta[o].invalid == s.meta[o].invalid
      && t.rev == s.rev
  {
    if s.first != NO_SEG && s.last in s.procs[p].table {
      NextTyped(s, p, s.last);
    }
  }

  lemma AddCreates(s: State, u: State, p: Proc, size: nat)
    requires TypeOk(u) && Creating(s, u, p, size) && u.procs[p].pc.Adding? && u.procs[p].pc.o in u.meta && CanLock(u, p)
    requires u.procs[p].pc.a == AddCheck ==> s.numShared < s.maxSegs
    ensures Creating(s, Step(u, p, Lock), p, size)
  {
    hide TypeOk, AddStep, Untracked;
    var o, a := u.procs[p].pc.o, u.procs[p].pc.a;
    AddParts(u, p, o, a);
    AddTable(u, p, o, a);
    if a == AddLink {
      LinkList(u, p, o);
      LinkIs(u, p, o);
    } else if a == AddLock {
      AddLockGoes(u, p, o);
    } else if a == AddUnlock {
      assert Created(s, AddStep(u, p, o, a), p, o, size);
    }
  }

  lemma LinkIs(s: State, p: Proc, o: Obj)
    requires TypeOk(s) && p in s.procs && o in s.meta
    ensures AddStep(s, p, o, AddLink) == AddLinkStep(s, p, o)
  {
    hide AddLinkStep, TypeOk;
  }

  // Opening a segment changes its counter, and in the end the table.
  lemma OpenParts(s: State, p: Proc)
    requires Inv(s) && TypeOk(s) && p in s.procs && (s.procs[p].pc.Resolving? || s.procs[p].pc.Opening?)
    ensures p in Step(s, p, Lock).procs
    ensures
      var t, pc := Step(s, p, Lock), s.procs[p].pc;
      && t == s.(meta := t.meta, procs := t.procs)
      && (forall o :: o in s.meta && !(pc.Opening? && o == pc.q) ==> o in t.meta && t.meta[o] == s.meta[o])
      && (forall o :: o in s.meta ==> o in t.meta && t.meta[o].invalid == s.meta[o].invalid && t.meta[o].num == s.meta[o].num)
      && Base(t.procs[p].pc) == Base(pc)
      && (t.procs[p].pc.Resolving? || t.procs[p].pc.Opening? || t.procs[p].pc == Resume(pc.w))
      && (forall n, o :: InTable(s.procs[p].table, n, o) ==> InTable(t.procs[p].table, n, o))
  {
    hide Names, Counts, Places, Tables, Held, LedgerOk, LockOk, ListOk, TypeOk, Goto, OpenStep;
    GetProc(s, p);
    PcTyped(s, p);
    match s.procs[p].pc
    case Resolving(n, v) =>
      ResumeBase(v);
      GoIs(s, p, Opening(s.names[n], OpenCount, v));
    case Opening(q, e, v) =>
      ResumeBase(v);
      ListedNamed(s, q);
      OpenGives(s, p, q, e, v);
  }

  lemma OpenGives(s: State, p: Proc, q: Obj, e: OpenStage, v: OpenCaller)
    requires p in s.procs && q in s.meta && !s.meta[q].ctr.flag && e != OpenWait
    ensures
      var t, table := OpenStep(s, p, q, e, v), s.procs[p].table;
      && t == s.(meta := t.meta, procs := s.procs[p := Process(if e == OpenCount then Opening(q, OpenCheck, v) else if e == OpenCheck then Opening(q, OpenTrack, v) else Resume(v),
                                                               if e == OpenTrack then table[s.meta[q].num := q] else table)])
      && t.meta == if e == OpenCount then s.meta[q := Entered(s.meta[q], p)] else s.meta
  {}

  lemma GoIs(u: State, p: Proc, pc: Pc)
    requires p in u.procs
    ensures Goto(u, p, pc) == u.(procs := u.procs[p := Process(pc, u.procs[p].table)])
  {}

  lemma OpenCreates(s: State, u: State, p: Proc, size: nat)
    requires Inv(u) && TypeOk(u) && Creating(s, u, p, size) && (u.procs[p].pc.Resolving? || u.procs[p].pc.Opening?)
    ensures Creating(s, Step(u, p, Lock), p, size)
  {
    hide Inv, TypeOk, Step, Created;
    OpenParts(u, p);
    OpenApart(u, p);
    ResumeBase(u.procs[p].pc.w);
  }

  lemma ReserveCreates(s: State, u: State, p: Proc, size: nat)
    requires TypeOk(u) && Creating(s, u, p, size) && s.total + size <= s.maxSize && u.procs[p].pc.Reserving?
    ensures Creating(s, Step(u, p, Lock), p, size)
  {
    hide TypeOk, Created;
  }

  lemma ChooseCreates(s: State, u: State, p: Proc, size: nat)
    requires TypeOk(u) && Creating(s, u, p, size) && u.procs[p].pc.Choosing? && u.procs[p].pc.o !in u.meta
    ensures Creating(s, Step(u, p, Lock), p, size)
  {
    hide TypeOk, Created;
  }

  lemma BuildCreates(s: State, u: State, p: Proc, size: nat)
    requires TypeOk(u) && Creating(s, u, p, size) && u.procs[p].pc.Building? && u.procs[p].pc.o in u.meta
    ensures Creating(s, Step(u, p, Lock), p, size)
  {
    hide TypeOk, Created;
  }

  lemma MakeCreates(s: State, u: State, p: Proc, size: nat)
    requires p in u.procs && Inv(u) && TypeOk(u) && Creating(s, u, p, size) && s.total + size <= s.maxSize
    requires u.procs[p].pc.Reserving? || u.procs[p].pc.Choosing? || u.procs[p].pc.Building?
    ensures Creating(s, Step(u, p, Lock), p, size)
  {
    hide Inv, TypeOk, Creating, Step;
    MakeKnown(u, p);
    if u.procs[p].pc.Reserving? {
      ReserveCreates(s, u, p, size);
    } else if u.procs[p].pc.Choosing? {
      ChooseCreates(s, u, p, size);
    } else {
      BuildCreates(s, u, p, size);
    }
  }

  lemma MakeKnown(s: State, p: Proc)
    requires Inv(s) && p in s.procs
    ensures s.procs[p].pc.Choosing? ==> s.procs[p].pc.o !in s.meta
    ensures s.procs[p].pc.Building? ==> s.procs[p].pc.o in s.meta
  {
    hide Names, Counts, Places, Tables, Held, LedgerOk, LockOk, ListOk;
    GetProc(s, p);
  }

  lemma CreatingKeeps(s: State, u: State, p: Proc, size: nat)
    requires p in u.procs && Inv(u) && TypeOk(u) && Creating(s, u, p, size) && u.procs[p].pc != Idle && CanLock(u, p)
    requires s.total + size <= s.maxSize && (u.procs[p].pc.Adding? && u.procs[p].pc.a == AddCheck ==> s.numShared < s.maxSegs)
    ensures Creating(s, Step(u, p, Lock), p, size)
  {
    hide Inv, TypeOk, Creating, Step;
    CreatingWhere(s, u, p, size);
    PcTyped(u, p);
    var pc := u.procs[p].pc;
    if pc.Adding? {
      AddCreates(s, u, p, size);
    } else if pc.Resolving? || pc.Opening? {
      OpenCreates(s, u, p, size);
    } else {
      MakeCreates(s, u, p, size);
    }
  }

  lemma CreatingWhere(s: State, u: State, p: Proc, size: nat)
    requires Creating(s, u, p, size) && u.procs[p].pc != Idle
    ensures var pc := u.procs[p].pc; pc.Adding? || pc.Resolving? || pc.Opening? || pc.Reserving? || pc.Choosing? || pc.Building?
    ensures var pc := u.procs[p].pc; pc.Adding? && pc.a == AddCheck ==> u.numShared == s.numShared && u.maxSegs == s.maxSegs
  {
    hide Created;
  }

  // With room for one more segment and for its size, and some number free, a process that
  // creates a segment and runs alone ends with the segment valid, the last of the list,
  // and tracked; its size is reserved, and the lock is as it was before.
  lemma CreateAlone(s: State, p: Proc, size: nat, free: int) returns (n: nat, t: State, o: Obj)
    requires Reachable(s) && p in s.procs && s.procs[p].pc == Idle && CanLock(s, p)
    requires s.total + size <= s.maxSize && s.numShared < s.maxSegs && 0 <= free <= SEG_MAX && free !in s.names
    ensures TypeOk(s) && t == Run(s, Chosen(p, Create(size), n)) && Works(Step(s, p, Create(size)), t, p, n)
    ensures p in t.procs && t.procs[p].pc == Idle && Created(s, t, p, o, size)
    ensures NamedAs(t.names, t.meta[o].num, o) && Walk(t, t.first, |t.fchain|) == t.fchain && WalkBack(t, t.last, 1) == [o]
    ensures t.owner == s.owner && t.level == s.level
  {
    hide Reachable, Inv, TypeOk, Accounted, Works, Numbered, Step, Creating, LocksOk, Run, Created;
    ReachableSafe(s);
    var own := OwnThere(s);
    var u := Step(s, p, Create(size));
    CreateStarts(s, p, size, free);
    StepKeeps(s, p, Create(size));
    InvTypes(u);
    LocksKeep(s, p, Create(size), own);
    SameOwners(s, own);
    assert own[p := own[p]] == own;
    var keeps := (v: State) => Creating(s, v, p, size) && LocksOk(v, own);
    forall v | keeps(v) && Running(v, p, free) && v.procs[p].pc != Idle ensures keeps(Step(v, p, Lock)) {
      CreatingKeeps(s, v, p, size);
      CreatingWhere(s, v, p, size);
      OwnStays(v, p, own);
    }
    n, t := GetsDone(u, p, free, keeps);
    ChosenRun(s, t, p, Create(size), n);
    LockKnown(s);
    LockKnown(t);
    LockBack(s, t, p, own);
    o := CreatedThere(s, t, p, size);
    ReachesOn(s, t, p, Chosen(p, Create(size), n));
    CreatedListed(s, t, p, o, size);
  }

  lemma CreatedThere(s: State, t: State, p: Proc, size: nat) returns (o: Obj)
    requires Creating(s, t, p, size) && t.procs[p].pc == Idle
    ensures Created(s, t, p, o, size)
  {
    o :| Created(s, t, p, o, size);
  }

  lemma CreateStarts(s: State, p: Proc, size: nat, free: int)
    requires TypeOk(s) && p in s.procs && s.procs[p].pc == Idle && CanLock(s, p) && 0 <= free <= SEG_MAX && free !in s.names
    ensures
      var u := Step(s, p, Create(size));
      && p in u.procs && u.procs[p].pc.Reserving? && Creating(s, u, p, size) && CanLock(u, p) && Numbered(u, p, free)
  {}

  lemma ReachesOn(s: State, t: State, p: Proc, sched: seq<(Proc, Choice)>)
    requires Reachable(s) && t == Run(s, sched)
    ensures Reachable(t)
  {
    hide Init, Turn, Run;
    var s0, before :| Init(s0) && s == Run(s0, before);
    RunConcat(s0, before, sched);
    assert t == Run(s0, before + sched);
  }

  lemma CreatedListed(s: State, t: State, p: Proc, o: Obj, size: nat)
    requires Reachable(t) && Created(s, t, p, o, size) && t.procs[p].pc == Idle && CanLock(t, p)
    ensures NamedAs(t.names, t.meta[o].num, o) && Walk(t, t.first, |t.fchain|) == t.fchain && WalkBack(t, t.last, 1) == [o]
  {
    hide Reachable, Inv, TypeOk, Accounted, Walk, WalkBack, NoDup;
    ReachableSafe(t);
    StillIdle(t, p);
    SameChains(t, p);
    ListedNamed(t, o);
    WalkVisits(t, |t.fchain|);
    WalkVisits(t, 1);
  }

  lemma StillIdle(s: State, p: Proc)
    requires p in s.procs && s.procs[p].pc == Idle && CanLock(s, p)
    ensures Now(s) == Still
  {}

  // A segment that would exceed the maximum size is not created.
  lemma TooLarge(s: State, p: Proc, size: nat)
    requires Reachable(s) && p in s.procs && s.procs[p].pc == Idle && s.total + size > s.maxSize
    ensures Run(s, Chosen(p, Create(size), 1)) == s
  {
    hide Reachable, Inv, Accounted;
    ReachableSafe(s);
    var u := Step(s, p, Create(size));
    assert Step(u, p, Lock) == s;
    assert Works(u, s, p, 1) by { assert Works(s, s, p, 0); }
    ChosenRun(s, s, p, Create(size), 1);
  }

  // ----- opening a segment -----

  // Segment `q` is being opened since state `s`, or has been.
  ghost predicate InOpening(s: State, u: State, p: Proc, q: Obj) {
    && p in s.procs && p in u.procs && u == s.(meta := u.meta, procs := s.procs[p := u.procs[p]])
    && q in s.meta && q in u.meta && u.meta == s.meta[q := u.meta[q]]
    && var table, m := s.procs[p].table, s.meta[q];
       match u.procs[p].pc
       case Resolving(n, v) => v == ForWalk && n == m.num && NamedAs(s.names, n, q) && u.meta[q] == m && u.procs[p].table == table
       case Opening(x, e, v) => x == q && v == ForWalk && u.meta[q] == (if e == OpenCount then m else Entered(m, p)) && u.procs[p].table == table
       case Idle => u.meta[q] == Entered(m, p) && u.procs[p].table == table[m.num := q]
       case _ => false
  }

  lemma OpeningKeeps(s: State, u: State, p: Proc, q: Obj)
    requires Inv(u) && TypeOk(u) && InOpening(s, u, p, q) && u.procs[p].pc != Idle
    ensures InOpening(s, Step(u, p, Lock), p, q)
  {
    hide Names, Counts, Places, Tables, Held, LedgerOk, LockOk, ListOk, TypeOk, Goto, OpenStep;
    GetProc(u, p);
    match u.procs[p].pc
    case Resolving(n, v) => GoIs(u, p, Opening(u.names[n], OpenCount, v));
    case Opening(x, e, v) =>
      ListedNamed(u, x);
      OpenGives(u, p, x, e, v);
  }

  // The number a walk goes to next.
  ghost function Target(s: State, p: Proc, c: Choice): int
    requires p in s.procs
  {
    match c
    case OpenFirst => s.first
    case OpenLast => s.last
    case OpenNext(n) => if n in s.procs[p].table && s.procs[p].table[n] in s.meta then s.meta[s.procs[p].table[n]].next else NO_SEG
    case _ => NO_SEG
  }

  // Under the lock, the process opens the segment its walk comes to, if it does not track
  // it yet: it is counted in and tracks it, and nothing else changes.
  lemma OpenAlone(s: State, p: Proc, c: Choice) returns (n: nat, t: State)
    requires Reachable(s) && p in s.procs && s.procs[p].pc == Idle && s.owner == Some(p)
    requires Target(s, p, c) != NO_SEG && Target(s, p, c) !in s.procs[p].table
    ensures t == Run(s, Chosen(p, c, n))
    ensures
      var k := Target(s, p, c);
      && k in s.names && s.names[k] in s.meta
      && t == s.(meta := s.meta[s.names[k] := Entered(s.meta[s.names[k]], p)], procs := s.procs[p := Process(Idle, s.procs[p].table[k := s.names[k]])])
  {
    hide Reachable, Inv, TypeOk, Accounted, Works, Numbered, Step, Run, InOpening, Entered;
    ReachableSafe(s);
    var k := Target(s, p, c);
    var u := Step(s, p, c);
    OpenStarts(s, p, c);
    StepKeeps(s, p, c);
    InvTypes(u);
    NameThere(u, p);
    var q := s.names[k];
    OpenBegins(s, p, c, q);
    var keeps := (v: State) => InOpening(s, v, p, q);
    forall v | keeps(v) && Running(v, p, 0) && v.procs[p].pc != Idle ensures keeps(Step(v, p, Lock)) {
      OpeningKeeps(s, v, p, q);
    }
    n, t := GetsDone(u, p, 0, keeps);
    ChosenRun(s, t, p, c, n);
    OpeningOver(s, t, p, q);
  }

  lemma OpenStarts(s: State, p: Proc, c: Choice)
    requires TypeOk(s) && p in s.procs && s.procs[p].pc == Idle && s.owner == Some(p)
    requires Target(s, p, c) != NO_SEG && Target(s, p, c) !in s.procs[p].table
    ensures
      var k, u := Target(s, p, c), Step(s, p, c);
      && u == s.(procs := s.procs[p := Process(Resolving(k, ForWalk), s.procs[p].table)])
      && CanLock(u, p) && Numbered(u, p, 0)
  {}

  lemma NameThere(s: State, p: Proc)
    requires Inv(s) && p in s.procs && s.procs[p].pc.Resolving?
    ensures var n := s.procs[p].pc.n; n in s.names && s.names[n] in s.meta && s.meta[s.names[n]].num == n
  {
    hide Counts, Places, Tables, Held, LedgerOk, LockOk, ListOk;
    GetProc(s, p);
    assert NameOk(s, s.procs[p].pc.n);
  }

  lemma OpenBegins(s: State, p: Proc, c: Choice, q: Obj)
    requires TypeOk(s) && p in s.procs && q in s.meta && NamedAs(s.names, s.meta[q].num, q)
    requires Step(s, p, c) == s.(procs := s.procs[p := Process(Resolving(s.meta[q].num, ForWalk), s.procs[p].table)])
    ensures InOpening(s, Step(s, p, c), p, q)
  {
    hide Step, TypeOk;
    assert s.meta[q := s.meta[q]] == s.meta;
  }

  lemma OpeningOver(s: State, t: State, p: Proc, q: Obj)
    requires InOpening(s, t, p, q) && t.procs[p].pc == Idle
    ensures t == s.(meta := s.meta[q := Entered(s.meta[q], p)], procs := s.procs[p := Process(Idle, s.procs[p].table[s.meta[q].num := q])])
  {
    hide Entered;
  }
}
