/** What the reserved sizes and the counts stand for: a size stays reserved only
    while its segment is being created, is in use, or is being given back by the
    process that unlinked it; and a segment nobody counts in has been flagged.
    So nothing leaks. */
module SegmentAccounts {
  import opened Counters
  import opened Options
  import opened SegmentModel
  import opened SegmentInvariant
  import opened SegmentFrames
  import opened SegmentLeaveSteps
  import opened SegmentSafety

  predicate ChosenBy(procs: map<Proc, Process>, creator: map<Obj, Proc>, o: Obj) {
    o in creator && creator[o] in procs && procs[creator[o]].pc.Choosing? && procs[creator[o]].pc.o == o
  }

  predicate FinishedBy(procs: map<Proc, Process>, f: Option<Proc>, o: Obj) {
    f.Some? && f.value in procs && procs[f.value].pc.Finishing? && procs[f.value].pc.o == o
  }

  predicate ZeroedBy(procs: map<Proc, Process>, creator: map<Obj, Proc>, o: Obj) {
    RawBy(procs, creator, o) && procs[creator[o]].pc.b == Zeroed
  }

  // Why the size of `o` is still reserved.
  predicate Owed(s: State, o: Obj) {
    if o in s.meta then !s.meta[o].ctr.flag || FinishedBy(s.procs, s.meta[o].flagger, o)
    else ChosenBy(s.procs, s.creator, o)
  }

  // Why segment `o` is not flagged yet.
  predicate InUse(s: State, o: Obj)
    requires o in s.meta
  {
    s.meta[o].ctr.flag || s.meta[o].trackers != {} || ZeroedBy(s.procs, s.creator, o)
  }

  ghost predicate Accounted(s: State) {
    && (forall o :: o in s.live ==> Owed(s, o))
    && (forall o :: o in s.meta ==> InUse(s, o))
    && (forall n :: n in s.names ==> s.names[n] in s.live)
  }

  predicate Settling(pc: Pc) {
    pc.Choosing? || pc.Building? || pc.Finishing?
  }

  predicate SameUse(m: Meta, m': Meta) {
    m'.ctr.flag == m.ctr.flag && m'.trackers == m.trackers && m'.flagger == m.flagger
  }

  // A step of `p` that neither creates nor ends anything.
  ghost predicate Unsettling(s: State, t: State, p: Proc) {
    && p in s.procs && p in t.procs && t.procs == s.procs[p := t.procs[p]]
    && !Settling(s.procs[p].pc) && !Settling(t.procs[p].pc)
    && t.live == s.live && t.names == s.names && t.creator == s.creator && t.meta.Keys == s.meta.Keys
    && (forall o :: o in s.meta ==> SameUse(s.meta[o], t.meta[o]))
  }

  lemma UnsettlingKeeps(s: State, t: State, p: Proc)
    requires Accounted(s) && Unsettling(s, t, p)
    ensures Accounted(t)
  {
    forall o | o in t.live ensures Owed(t, o) {
      assert Owed(s, o);
      assert o in s.meta ==> SameUse(s.meta[o], t.meta[o]);
    }
    forall o | o in t.meta ensures InUse(t, o) {
      assert InUse(s, o) && SameUse(s.meta[o], t.meta[o]);
    }
  }

  lemma ReserveAccounted(s: State, p: Proc, k: int, size: nat)
    requires Inv(s) && Accounted(s) && p in s.procs && s.procs[p].pc == Reserving(k, size)
    ensures Accounted(ReserveStep(s, p, k, size))
  {
    hide Names, Counts, Places, Procs, Tables, Held, ListOk;
    var t := ReserveStep(s, p, k, size);
    forall o | o in t.live ensures Owed(t, o) {
      assert o in s.live ==> Owed(s, o);
    }
    forall o | o in t.meta ensures InUse(t, o) {
      assert InUse(s, o);
    }
  }

  lemma ChooseAccounted(s: State, p: Proc, o: Obj, k: int, size: nat)
    requires Inv(s) && Accounted(s) && p in s.procs && s.procs[p].pc == Choosing(o, k, size)
    ensures Accounted(ChooseStep(s, p, o, k, size))
  {
    hide Names, Counts, Places, Procs, Tables, Held, ListOk;
    GetProc(s, p);
    var t := ChooseStep(s, p, o, k, size);
    forall x | x in t.live ensures Owed(t, x) {
      assert Owed(s, x);
    }
    forall x | x in t.meta ensures InUse(t, x) {
      assert x in s.meta ==> InUse(s, x);
    }
  }

  lemma BuildAccounted(s: State, p: Proc, o: Obj, b: BuildStage)
    requires Inv(s) && Accounted(s) && p in s.procs && s.procs[p].pc == Building(o, b) && o in s.meta
    ensures Accounted(BuildStep(s, p, o, b))
  {
    hide Names, Counts, Places, Procs, Tables, Held, ListOk;
    GetProc(s, p);
    var t := BuildStep(s, p, o, b);
    forall x | x in t.live ensures Owed(t, x) {
      assert Owed(s, x);
    }
    forall x | x in t.meta ensures InUse(t, x) {
      assert InUse(s, x);
      assert p in {} + {p};
    }
  }

  lemma OpenAccounted(s: State, p: Proc, q: Obj, w: OpenCaller)
    requires Accounted(s) && p in s.procs && s.procs[p].pc == Opening(q, OpenCount, w) && q in s.meta
    ensures Accounted(OpenStep(s, p, q, OpenCount, w))
  {
    var t := OpenStep(s, p, q, OpenCount, w);
    forall x | x in t.live ensures Owed(t, x) {
      assert Owed(s, x);
    }
    forall x | x in t.meta ensures InUse(t, x) {
      assert InUse(s, x);
      assert p in s.meta[q].trackers + {p};
    }
  }

  lemma SwapAccounted(s: State, p: Proc, o: Obj, seen: Counter, flagging: bool)
    requires Inv(s) && Accounted(s) && p in s.procs && s.procs[p].pc == Swapping(o, seen, flagging) && o in s.meta && s.meta[o].ctr == seen
    ensures Accounted(SwapStep(s, p, o, seen, flagging))
  {
    hide Inv;
    var t := SwapStep(s, p, o, seen, flagging);
    SwapFacts(s, p, o, seen, flagging);
    assert |s.meta[o].trackers - {p}| == |s.meta[o].trackers| - 1;
    forall x | x in t.live ensures Owed(t, x) {
      assert Owed(s, x);
    }
    forall x | x in t.meta ensures InUse(t, x) {
      assert InUse(s, x);
    }
  }

  lemma FinishAccounted(s: State, p: Proc, o: Obj, f: FinishStage)
    requires Inv(s) && Accounted(s) && p in s.procs && s.procs[p].pc == Finishing(o, f) && o in s.meta
    ensures Accounted(FinishStep(s, p, o, f))
  {
    hide Counts, Places, Procs, Tables, Held, ListOk, LedgerOk, LockOk;
    FinishFacts(s, p, o, f);
    var t := FinishStep(s, p, o, f);
    forall x | x in t.live ensures Owed(t, x) {
      assert Owed(s, x);
    }
    forall x | x in t.meta ensures InUse(t, x) {
      assert InUse(s, x);
    }
    forall n | n in t.names ensures t.names[n] in t.live {
      assert NameOk(s, n) && s.names[n] in s.live;
    }
  }

  // Moving `p` on, with at most one segment's mark or links rewritten.
  lemma MovesOn(s: State, u: State, p: Proc, x: Process)
    requires p in s.procs && u.procs == s.procs && u.live == s.live && u.names == s.names && u.creator == s.creator && u.meta == s.meta
    requires !Settling(s.procs[p].pc) && !Settling(x.pc)
    ensures Unsettling(s, u.(procs := u.procs[p := x]), p)
  {}

  lemma Rewrites(s: State, u: State, p: Proc, pc: Pc, o: Obj, m: Meta)
    requires p in s.procs && u.procs == s.procs && u.live == s.live && u.names == s.names && u.creator == s.creator && u.meta == s.meta
    requires o in s.meta && SameUse(s.meta[o], m)
    requires !Settling(s.procs[p].pc) && !Settling(pc)
    ensures Unsettling(s, Goto(Write(u, o, m), p, pc), p)
  {}

  lemma StaysPut(s: State, u: State, p: Proc)
    requires p in s.procs && u.procs == s.procs && u.live == s.live && u.names == s.names && u.creator == s.creator && u.meta == s.meta
    requires !Settling(s.procs[p].pc)
    ensures Unsettling(s, u, p)
  {}

  lemma AccountKeeps(s: State, p: Proc, c: Choice)
    requires Inv(s) && TypeOk(s) && Accounted(s) && p in s.procs
    ensures Accounted(Step(s, p, c))
  {
    hide Inv, TypeOk, Accounted, Unsettling;
    hide IdleStep, AddStep, RemStep, OpenStep, DetachStep, SwapStep, FinishStep, BuildStep, ResolveStep, ReserveStep, ChooseStep;
    PcTyped(s, p);
    var pc := s.procs[p].pc;
    if pc.Reserving? {
      ReserveAccounted(s, p, pc.k, pc.size);
    } else if pc.Choosing? {
      ChooseAccounted(s, p, pc.o, pc.k, pc.size);
    } else if pc.Building? {
      BuildAccounted(s, p, pc.o, pc.b);
    } else if pc.Finishing? {
      FinishAccounted(s, p, pc.o, pc.f);
    } else if pc.Swapping? && s.meta[pc.o].ctr == pc.seen {
      SwapAccounted(s, p, pc.o, pc.seen, pc.flagging);
    } else if pc.Opening? && pc.e == OpenCount {
      OpenAccounted(s, p, pc.q, pc.w);
    } else {
      StepUnsettling(s, p, c);
      UnsettlingKeeps(s, Step(s, p, c), p);
    }
  }

  lemma StepUnsettling(s: State, p: Proc, c: Choice)
    requires TypeOk(s) && p in s.procs && !Settling(s.procs[p].pc) && !s.procs[p].pc.Reserving?
    requires s.procs[p].pc.Swapping? ==> s.procs[p].pc.o in s.meta && s.meta[s.procs[p].pc.o].ctr != s.procs[p].pc.seen
    requires s.procs[p].pc.Opening? ==> s.procs[p].pc.e != OpenCount
    ensures Unsettling(s, Step(s, p, c), p)
  {
    hide TypeOk, Unsettling, IdleStep, AddStep, RemStep;
    PcTyped(s, p);
    match s.procs[p].pc
    case Idle => IdleUnsettling(s, p, c);
    case Adding(o, a) => AddUnsettling(s, p, o, a);
    case Removing(o, m, r) => RemUnsettling(s, p, o, m, r);
    case Opening(q, e, w) => OpenUnsettling(s, p, q, e, w);
    case Swapping(o, seen, flagging) => MovesOn(s, s, p, Process(Detaching(o), s.procs[p].table));
    case Detaching(o) =>
      MovesOn(s, s, p, Process(Removing(o, RemPeek, FromDetach(s.meta[o].ctr)), s.procs[p].table));
      MovesOn(s, s, p, Process(Swapping(o, s.meta[o].ctr, false), s.procs[p].table));
    case Resolving(n, w) =>
      MovesOn(s, s, p, Process(Fault, s.procs[p].table));
      if n in s.names {
        MovesOn(s, s, p, Process(Opening(s.names[n], OpenCount, w), s.procs[p].table));
      }
    case Fault => StaysPut(s, s, p);
  }

  lemma OpenUnsettling(s: State, p: Proc, q: Obj, e: OpenStage, w: OpenCaller)
    requires p in s.procs && q in s.meta && s.procs[p].pc == Opening(q, e, w) && e != OpenCount
    ensures Unsettling(s, OpenStep(s, p, q, e, w), p)
  {
    hide Unsettling;
    var x := s.procs[p];
    match e
    case OpenCheck => MovesOn(s, s, p, x.(pc := Opening(q, if s.meta[q].ctr.flag then OpenWait else OpenTrack, w)));
    case OpenWait =>
      StaysPut(s, s, p);
      MovesOn(s, s, p, x.(pc := Resolving(s.meta[q].num, w)));
    case OpenTrack => MovesOn(s, s, p, Process(Resume(w), x.table[s.meta[q].num := q]));
  }

  lemma IdleUnsettling(s: State, p: Proc, c: Choice)
    requires TypeOk(s) && p in s.procs && s.procs[p].pc == Idle
    ensures Unsettling(s, IdleStep(s, p, c), p)
  {
    hide Unsettling;
    var x := s.procs[p];
    StaysPut(s, s, p);
    match c
    case Create(size) => MovesOn(s, s, p, x.(pc := Reserving(NextNumber(s.last), size)));
    case Lock => StaysPut(s, Acquire(s, p), p);
    case Unlock => StaysPut(s, Release(s, p), p);
    case OpenFirst => MovesOn(s, s, p, x.(pc := Resolving(s.first, ForWalk)));
    case OpenLast => MovesOn(s, s, p, x.(pc := Resolving(s.last, ForWalk)));
    case OpenNext(n) =>
      if n in x.table && x.table[n] in s.meta {
        MovesOn(s, s, p, x.(pc := Resolving(s.meta[x.table[n]].next, ForWalk)));
      }
    case RemoveShared(n) => if n in x.table { MovesOn(s, s, p, x.(pc := Removing(x.table[n], RemPeek, Explicit))); }
    case Detach(n) => if n in x.table { MovesOn(s, s, p, Process(Detaching(x.table[n]), x.table - {n})); }
  }

  lemma AddUnsettling(s: State, p: Proc, o: Obj, a: AddStage)
    requires TypeOk(s) && p in s.procs && s.procs[p].pc == Adding(o, a) && o in s.meta
    ensures Unsettling(s, AddStep(s, p, o, a), p)
  {
    hide Unsettling;
    var x := s.procs[p];
    match a
    case AddLock =>
      StaysPut(s, s, p);
      MovesOn(s, Acquire(s, p), p, x.(pc := Adding(o, AddCheck)));
    case AddCheck =>
      MovesOn(s, s, p, Process(Detaching(o), x.table - {s.meta[o].num}));
      MovesOn(s, s.(numShared := s.numShared + 1), p, x.(pc := Adding(o, AddLink)));
    case AddLink =>
      MovesOn(s, s.(first := s.meta[o].num, fchain := s.fchain + [o]), p, x.(pc := Adding(o, AddPrev)));
      MovesOn(s, s, p, x.(pc := Resolving(s.last, ForAdd(o))));
      if s.last in x.table && x.table[s.last] in s.meta {
        var z := x.table[s.last];
        Rewrites(s, s.(fchain := s.fchain + [o]), p, Adding(o, AddPrev), z, s.meta[z].(next := s.meta[o].num));
      }
    case AddPrev => Rewrites(s, s, p, Adding(o, AddValid), o, s.meta[o].(prev := s.last));
    case AddValid => Rewrites(s, s, p, Adding(o, AddLast), o, s.meta[o].(invalid := false));
    case AddLast => MovesOn(s, s.(last := s.meta[o].num, bchain := s.bchain + [o]), p, x.(pc := Adding(o, AddBump)));
    case AddBump => MovesOn(s, s.(rev := NextRev(s.rev)), p, x.(pc := Adding(o, AddUnlock)));
    case AddUnlock => MovesOn(s, Release(s, p), p, x.(pc := Idle));
  }

  lemma RemUnsettling(s: State, p: Proc, o: Obj, m: RemStage, r: RemoveCaller)
    requires TypeOk(s) && p in s.procs && s.procs[p].pc == Removing(o, m, r) && o in s.meta
    ensures Unsettling(s, RemStep(s, p, o, m, r), p)
  {
    hide TypeOk, Unsettling, FixPrevStep, FixNextStep;
    var x := s.procs[p];
    match m
    case RemPeek =>
      MovesOn(s, s, p, x.(pc := AfterRemove(o, r)));
      MovesOn(s, s, p, x.(pc := Removing(o, RemLock, r)));
    case RemLock =>
      StaysPut(s, s, p);
      MovesOn(s, Acquire(s, p), p, x.(pc := Removing(o, RemCheck, r)));
    case RemCheck => MovesOn(s, s, p, x.(pc := Removing(o, if s.meta[o].invalid then RemUnlock else RemMark, r)));
    case RemMark => Rewrites(s, s, p, Removing(o, RemFixPrev, r), o, s.meta[o].(invalid := true));
    case RemFixPrev => FixUnsettling(s, p, o, r);
    case RemFixNext => FixUnsettling(s, p, o, r);
    case RemReset => Rewrites(s, s, p, Removing(o, RemCount, r), o, s.meta[o].(next := NO_SEG, prev := NO_SEG));
    case RemCount => MovesOn(s, s.(numShared := s.numShared - 1), p, x.(pc := Removing(o, RemBump, r)));
    case RemBump => MovesOn(s, s.(rev := NextRev(s.rev)), p, x.(pc := Removing(o, RemUnlock, r)));
    case RemUnlock => MovesOn(s, Release(s, p), p, x.(pc := AfterRemove(o, r)));
  }

  lemma FixUnsettling(s: State, p: Proc, o: Obj, r: RemoveCaller)
    requires TypeOk(s) && p in s.procs && s.procs[p].pc.Removing? && o in s.meta
    ensures Unsettling(s, FixPrevStep(s, p, o, r), p)
    ensures Unsettling(s, FixNextStep(s, p, o, r), p)
  {
    hide Unsettling, Without;
    var x := s.procs[p];
    MovesOn(s, s.(first := s.meta[o].next, fchain := Without(s.fchain, o)), p, x.(pc := Removing(o, RemFixNext, r)));
    MovesOn(s, s, p, x.(pc := Resolving(s.meta[o].prev, ForPrev(o, r))));
    if s.meta[o].prev in x.table {
      var z := x.table[s.meta[o].prev];
      Rewrites(s, s.(fchain := Without(s.fchain, o)), p, Removing(o, RemFixNext, r), z, s.meta[z].(next := s.meta[o].next));
    }
    MovesOn(s, s.(last := s.meta[o].prev, bchain := Without(s.bchain, o)), p, x.(pc := Removing(o, RemReset, r)));
    MovesOn(s, s, p, x.(pc := Resolving(s.meta[o].next, ForNext(o, r))));
    if s.meta[o].next in x.table {
      var z := x.table[s.meta[o].next];
      Rewrites(s, s.(bchain := Without(s.bchain, o)), p, Removing(o, RemReset, r), z, s.meta[z].(prev := s.meta[o].prev));
    }
  }
}
