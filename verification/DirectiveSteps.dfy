/** How one protocol step carries over the list of the process that makes it and the
    lists of the others. */
module DirectiveSteps {
  import opened Counters
  import opened Options
  import opened SegmentModel
  import opened SegmentInvariant
  import opened SegmentFrames
  import opened SegmentLists
  import opened SegmentSafety
  import opened DirectiveModel
  import opened DirectiveFrames
  import opened DirectiveInvariant

  // ----- the other processes -----

  lemma OtherOrder(s: State, t: State, p: Proc, q: Proc, order: seq<Obj>)
    requires Moved(s, t, p) && q != p && q in s.procs && OrderOk(s.meta, s.procs[q].table, order)
    ensures q in t.procs && t.procs[q] == s.procs[q] && OrderOk(t.meta, t.procs[q].table, order)
  {
    hide WindowMoves, NoDup;
  }

  lemma OtherAct(s: State, t: State, p: Proc, q: Proc, l: Local, bumps: nat, bumps': nat)
    requires Inv(s) && Moved(s, t, p) && q != p && q in s.procs && ActOk(s, q, l, s.procs[q], bumps)
    requires bumps' == (if Bumps(s.procs[p].pc) then bumps + 1 else bumps)
    ensures q in t.procs && ActOk(t, q, l, t.procs[q], bumps')
  {
    hide WindowMoves, Names, Counts, Places, Tables, Held, LedgerOk, ListOk, Procs, Tail;
    NoWindow(s, p);
    if s.owner == Some(q) {
      OwnerMoves(s, t, p, q);
    }
    if l.act.Discarding? && s.procs[q].pc == Idle {
      GetEntry(s, q, l.act.n);
    }
    if l.act.Fetching? && s.procs[q].pc.Resolving? {
      assert t.meta[s.fchain[l.act.i]].num == s.meta[s.fchain[l.act.i]].num;
    }
  }

  // While `q` holds the lock, nothing of the list changes.
  lemma OwnerMoves(s: State, t: State, p: Proc, q: Proc)
    requires Inv(s) && Moved(s, t, p) && q != p && s.owner == Some(q)
    ensures t.owner == s.owner && t.fchain == s.fchain && t.last == s.last && !Bumps(s.procs[p].pc)
  {
    hide WindowMoves, Names, Counts, Places, Tables, Held, LedgerOk, ListOk;
    NoWindow(s, p);
  }

  // What `Follow` does to the parts everybody shares.
  ghost predicate Followed(w: Wide, t: Wide, p: Proc) {
    && p in w.core.procs && Moved(w.core, t.core, p)
    && t.bumps == (if Bumps(w.core.procs[p].pc) then w.bumps + 1 else w.bumps)
    && t.agreed == (if Bumps(w.core.procs[p].pc) then t.core.fchain else w.agreed)
    && p in w.locals && p in t.locals && t.locals == w.locals[p := t.locals[p]]
  }

  lemma OtherKeeps(w: Wide, t: Wide, p: Proc, q: Proc)
    requires Inv(w.core) && Followed(w, t, p) && q != p && q in w.locals && q in w.core.procs && Abreast(w, q)
    ensures q in t.locals && q in t.core.procs && Abreast(t, q)
  {
    hide Inv, Moved, ActOk, OrderOk, Claim, TipOk, WindowMoves;
    var s, u := w.core, t.core;
    MovedParts(s, u, p);
    OtherOrder(s, u, p, q, w.locals[q].order);
    OtherAct(s, u, p, q, w.locals[q], w.bumps, t.bumps);
    ClaimMoves(w.locals[q], Base(s.procs[q].pc), w.agreed, Now(s), Now(u), s.fchain, u.fchain, w.bumps, Bumps(s.procs[p].pc));
    TipMoves(Now(s), Now(u), s.fchain, u.fchain, w.locals[q].tip, w.agreed, w.bumps, Bumps(s.procs[p].pc));
  }

  lemma MovedParts(s: State, t: State, p: Proc)
    requires Moved(s, t, p)
    ensures t.procs.Keys == s.procs.Keys && p in s.procs
    ensures forall o :: o in s.meta ==> o in t.meta && t.meta[o].num == s.meta[o].num
    ensures t.rev == (if Bumps(s.procs[p].pc) then NextRev(s.rev) else s.rev)
    ensures WindowMoves(Now(s), Now(t), s.fchain, t.fchain, Bumps(s.procs[p].pc))
  {
    hide WindowMoves;
  }

  lemma SharedKeeps(w: Wide, t: Wide, p: Proc)
    requires Shared(w) && Followed(w, t, p) && NoDup(t.core.fchain)
    ensures Shared(t)
  {
    hide Moved, AgreedOk, NoDup, WindowMoves;
    MovedParts(w.core, t.core, p);
    AgreedMoves(Now(w.core), Now(t.core), w.core.fchain, t.core.fchain, w.agreed, Bumps(w.core.procs[p].pc));
    RevNext(w.bumps);
  }

  lemma NoDupChains(s: State)
    requires Inv(s)
    ensures NoDup(s.fchain) && NoDup(s.bchain)
  {
    hide Names, Counts, Places, Tables, Held, LedgerOk, Procs;
  }

  // ----- the process itself: its table and its list -----

  lemma Tracks(meta: map<Obj, Meta>, table: map<int, Obj>, order: seq<Obj>, o: Obj)
    requires OrderOk(meta, table, order) && o in meta && meta[o].num !in table
    ensures OrderOk(meta, table[meta[o].num := o], order + [o])
  {}

  lemma Untracks(meta: map<Obj, Meta>, table: map<int, Obj>, order: seq<Obj>, n: int)
    requires OrderOk(meta, table, order) && n in table
    ensures OrderOk(meta, table - {n}, Without(order, table[n]))
  {
    hide Without, NoDup;
    var o := table[n];
    WithoutMembers(order, o);
    assert o in order && meta[o].num in table;
  }

  lemma SameTracks(meta: map<Obj, Meta>, meta': map<Obj, Meta>, table: map<int, Obj>, order: seq<Obj>)
    requires OrderOk(meta, table, order) && forall o :: o in meta ==> o in meta' && meta'[o].num == meta[o].num
    ensures OrderOk(meta', table, order)
  {}

  // The table after a step of its process.
  function TableAfter(s: State, p: Proc, c: Choice): map<int, Obj>
    requires TypeOk(s) && p in s.procs
  {
    var table := s.procs[p].table;
    match s.procs[p].pc
    case Building(o, b) => if b == Unlisted && o in s.meta then table[s.meta[o].num := o] else table
    case Opening(q, e, _) => if e == OpenTrack && q in s.meta then table[s.meta[q].num := q] else table
    case Adding(o, a) => if a == AddCheck && s.numShared >= s.maxSegs && o in s.meta then table - {s.meta[o].num} else table
    case Idle => if c.Detach? && c.n in table then table - {c.n} else table
    case _ => table
  }

  // A step keeps the process out of a change of its own, or in one; what it tracks
  // before sharing stays.  It starts following the list only between operations.
  predicate Calm(pc: Pc, pc': Pc) {
    && (Bumps(pc) || Editing(Base(pc')) || ForWalks(pc) || (!Editing(Base(pc)) && Extra(Base(pc')) == Extra(Base(pc))))
    && (ForWalks(pc') ==> ForWalks(pc))
    && !pc'.Building?
  }

  // Where a step of an append leads.
  predicate AddLeads(s: State, o: Obj, a: AddStage, pc': Pc)
    requires o in s.meta
  {
    match a
    case AddLock => pc' == Adding(o, AddLock) || pc' == Adding(o, AddCheck)
    case AddCheck => pc' == if s.numShared >= s.maxSegs then Detaching(o) else Adding(o, AddLink)
    case AddLink => pc' == Adding(o, AddPrev) || pc' == Resolving(s.last, ForAdd(o))
    case AddPrev => pc' == Adding(o, AddValid)
    case AddValid => pc' == Adding(o, AddLast)
    case AddLast => pc' == Adding(o, AddBump)
    case AddBump => pc' == Adding(o, AddUnlock)
    case AddUnlock => pc' == Idle
  }

  lemma AddTable(s: State, p: Proc, o: Obj, a: AddStage)
    requires TypeOk(s) && p in s.procs && s.procs[p].pc == Adding(o, a) && o in s.meta
    ensures p in AddStep(s, p, o, a).procs && AddStep(s, p, o, a).procs[p].table == TableAfter(s, p, Lock)
    ensures AddLeads(s, o, a, AddStep(s, p, o, a).procs[p].pc)
  {
    hide TypeOk, Goto, Write, Acquire, Release, AddLinkStep;
    HeldApart(s, p);
    var x := s.meta[o];
    match a
    case AddLock =>
      if CanLock(s, p) {
        Going(Acquire(s, p), p, Adding(o, AddCheck));
      }
    case AddCheck =>
      if s.numShared < s.maxSegs {
        Going(s.(numShared := s.numShared + 1), p, Adding(o, AddLink));
      }
    case AddLink => LinkTable(s, p, o);
    case AddPrev =>
      Rewriting(s, o, x.(prev := s.last));
      Going(Write(s, o, x.(prev := s.last)), p, Adding(o, AddValid));
    case AddValid =>
      Rewriting(s, o, x.(invalid := false));
      Going(Write(s, o, x.(invalid := false)), p, Adding(o, AddLast));
    case AddLast => Going(s.(last := x.num, bchain := s.bchain + [o]), p, Adding(o, AddBump));
    case AddBump => Going(s.(rev := NextRev(s.rev)), p, Adding(o, AddUnlock));
    case AddUnlock => Going(Release(s, p), p, Idle);
  }

  lemma AddCalm(s: State, o: Obj, a: AddStage, pc': Pc)
    requires o in s.meta && AddLeads(s, o, a, pc')
    ensures (a == AddCheck && s.numShared >= s.maxSegs) || Calm(Adding(o, a), pc')
  {}

  lemma HeldApart(s: State, p: Proc)
    ensures Acquire(s, p).procs == s.procs && Release(s, p).procs == s.procs
  {}

  lemma Going(u: State, p: Proc, pc: Pc)
    requires p in u.procs
    ensures p in Goto(u, p, pc).procs && Goto(u, p, pc).procs[p] == Process(pc, u.procs[p].table)
  {}

  lemma LinkTable(s: State, p: Proc, o: Obj)
    requires TypeOk(s) && p in s.procs && o in s.meta
    ensures p in AddLinkStep(s, p, o).procs && AddLinkStep(s, p, o).procs[p].table == s.procs[p].table
    ensures
      var pc' := AddLinkStep(s, p, o).procs[p].pc;
      pc' == Adding(o, AddPrev) || pc' == Resolving(s.last, ForAdd(o))
  {
    hide TypeOk, Goto, Write;
    var table, u := s.procs[p].table, s.(fchain := s.fchain + [o]);
    if s.first == NO_SEG {
      Going(s.(first := s.meta[o].num, fchain := s.fchain + [o]), p, Adding(o, AddPrev));
    } else if s.last in table {
      NextTyped(s, p, s.last);
      var z := table[s.last];
      Rewriting(u, z, s.meta[z].(next := s.meta[o].num));
      Going(Write(u, z, s.meta[z].(next := s.meta[o].num)), p, Adding(o, AddPrev));
    } else {
      Going(s, p, Resolving(s.last, ForAdd(o)));
    }
  }

  // Where a step of a removal leads.
  predicate RemLeads(s: State, o: Obj, m: RemStage, r: RemoveCaller, pc': Pc)
    requires o in s.meta
  {
    match m
    case RemPeek => pc' == if s.meta[o].invalid then AfterRemove(o, r) else Removing(o, RemLock, r)
    case RemLock => pc' == Removing(o, RemLock, r) || pc' == Removing(o, RemCheck, r)
    case RemCheck => pc' == Removing(o, RemUnlock, r) || pc' == Removing(o, RemMark, r)
    case RemMark => pc' == Removing(o, RemFixPrev, r)
    case RemFixPrev => pc' == Removing(o, RemFixNext, r) || pc' == Resolving(s.meta[o].prev, ForPrev(o, r))
    case RemFixNext => pc' == Removing(o, RemReset, r) || pc' == Resolving(s.meta[o].next, ForNext(o, r))
    case RemReset => pc' == Removing(o, RemCount, r)
    case RemCount => pc' == Removing(o, RemBump, r)
    case RemBump => pc' == Removing(o, RemUnlock, r)
    case RemUnlock => pc' == AfterRemove(o, r)
  }

  lemma RemTable(s: State, p: Proc, o: Obj, m: RemStage, r: RemoveCaller)
    requires TypeOk(s) && p in s.procs && s.procs[p].pc == Removing(o, m, r) && o in s.meta
    ensures p in RemStep(s, p, o, m, r).procs && RemStep(s, p, o, m, r).procs[p].table == s.procs[p].table
    ensures RemLeads(s, o, m, r, RemStep(s, p, o, m, r).procs[p].pc)
  {
    hide TypeOk, Goto, Write, Acquire, Release, FixPrevStep, FixNextStep;
    HeldApart(s, p);
    var x := s.meta[o];
    match m
    case RemFixPrev => PrevTable(s, p, o, r);
    case RemFixNext => NextTable(s, p, o, r);
    case RemPeek => Going(s, p, if x.invalid then AfterRemove(o, r) else Removing(o, RemLock, r));
    case RemLock =>
      if CanLock(s, p) {
        Going(Acquire(s, p), p, Removing(o, RemCheck, r));
      }
    case RemCheck => Going(s, p, Removing(o, if x.invalid then RemUnlock else RemMark, r));
    case RemMark =>
      Rewriting(s, o, x.(invalid := true));
      Going(Write(s, o, x.(invalid := true)), p, Removing(o, RemFixPrev, r));
    case RemReset =>
      Rewriting(s, o, x.(next := NO_SEG, prev := NO_SEG));
      Going(Write(s, o, x.(next := NO_SEG, prev := NO_SEG)), p, Removing(o, RemCount, r));
    case RemCount => Going(s.(numShared := s.numShared - 1), p, Removing(o, RemBump, r));
    case RemBump => Going(s.(rev := NextRev(s.rev)), p, Removing(o, RemUnlock, r));
    case RemUnlock => Going(Release(s, p), p, AfterRemove(o, r));
  }

  lemma RemCalm(s: State, o: Obj, m: RemStage, r: RemoveCaller, pc': Pc)
    requires o in s.meta && RemLeads(s, o, m, r, pc')
    ensures Calm(Removing(o, m, r), pc')
    ensures pc' == AfterRemove(o, r) || (Base(pc').Removing? && Base(pc').o == o && Base(pc').r == r)
    ensures r == Explicit && pc' == Idle ==> m == RemUnlock || (m == RemPeek && s.meta[o].invalid)
  {}

  lemma PrevTable(s: State, p: Proc, o: Obj, r: RemoveCaller)
    requires TypeOk(s) && p in s.procs && o in s.meta
    ensures p in FixPrevStep(s, p, o, r).procs && FixPrevStep(s, p, o, r).procs[p].table == s.procs[p].table
    ensures
      var pc' := FixPrevStep(s, p, o, r).procs[p].pc;
      pc' == Removing(o, RemFixNext, r) || pc' == Resolving(s.meta[o].prev, ForPrev(o, r))
  {
    hide TypeOk, Without, Goto, Write;
    var m, table := s.meta[o], s.procs[p].table;
    var u := s.(fchain := Without(s.fchain, o));
    if m.num == s.first {
      Going(s.(first := m.next, fchain := Without(s.fchain, o)), p, Removing(o, RemFixNext, r));
    } else if m.prev in table {
      NextTyped(s, p, m.prev);
      var z := table[m.prev];
      Rewriting(u, z, s.meta[z].(next := m.next));
      Going(Write(u, z, s.meta[z].(next := m.next)), p, Removing(o, RemFixNext, r));
    } else {
      Going(s, p, Resolving(m.prev, ForPrev(o, r)));
    }
  }

  lemma Rewriting(s: State, o: Obj, m: Meta)
    ensures Write(s, o, m).procs == s.procs
  {}

  lemma NextTable(s: State, p: Proc, o: Obj, r: RemoveCaller)
    requires TypeOk(s) && p in s.procs && o in s.meta
    ensures p in FixNextStep(s, p, o, r).procs && FixNextStep(s, p, o, r).procs[p].table == s.procs[p].table
    ensures
      var pc' := FixNextStep(s, p, o, r).procs[p].pc;
      pc' == Removing(o, RemReset, r) || pc' == Resolving(s.meta[o].next, ForNext(o, r))
  {
    hide TypeOk, Without, Goto, Write;
    var m, table := s.meta[o], s.procs[p].table;
    var u := s.(bchain := Without(s.bchain, o));
    if m.num == s.last {
      Going(s.(last := m.prev, bchain := Without(s.bchain, o)), p, Removing(o, RemReset, r));
    } else if m.next in table {
      NextTyped(s, p, m.next);
      var z := table[m.next];
      Rewriting(u, z, s.meta[z].(prev := m.prev));
      Going(Write(u, z, s.meta[z].(prev := m.prev)), p, Removing(o, RemReset, r));
    } else {
      Going(s, p, Resolving(m.next, ForNext(o, r)));
    }
  }

  lemma IdleTable(s: State, p: Proc, c: Choice)
    requires TypeOk(s) && p in s.procs && s.procs[p].pc == Idle
    ensures p in IdleStep(s, p, c).procs && IdleStep(s, p, c).procs[p].table == TableAfter(s, p, c)
    ensures
      var b := Base(IdleStep(s, p, c).procs[p].pc);
      !Editing(b) && Extra(b) == [] && !IdleStep(s, p, c).procs[p].pc.Building?
  {
    hide Goto, FindOrOpen, Acquire, Release, Untrack, TypeOk;
    HeldApart(s, p);
    var table := s.procs[p].table;
    match c
    case Create(size) => Going(s, p, Reserving(NextNumber(s.last), size));
    case Lock =>
    case Unlock =>
    case OpenFirst => Finding(s, p, s.first);
    case OpenLast => Finding(s, p, s.last);
    case OpenNext(n) =>
      if n in table {
        NextTyped(s, p, n);
        Finding(s, p, s.meta[table[n]].next);
      }
    case RemoveShared(n) =>
      if n in table {
        Going(s, p, Removing(table[n], RemPeek, Explicit));
      }
    case Detach(n) =>
      if n in table {
        Untracking(s, p, n, Detaching(table[n]));
      }
  }

  lemma Untracking(s: State, p: Proc, n: int, pc: Pc)
    requires p in s.procs
    ensures p in Untrack(s, p, n, pc).procs && Untrack(s, p, n, pc).procs[p] == Process(pc, s.procs[p].table - {n})
  {}

  lemma Finding(s: State, p: Proc, n: int)
    requires p in s.procs
    ensures var t := FindOrOpen(s, p, n, ForWalk);
      p in t.procs && t.procs[p] == if n in s.procs[p].table then s.procs[p] else s.procs[p].(pc := Resolving(n, ForWalk))
  {}

  lemma OtherTable(s: State, p: Proc, c: Choice)
    requires TypeOk(s) && p in s.procs
    requires var pc := s.procs[p].pc; !pc.Adding? && !pc.Removing? && !pc.Idle? && (pc.Resolving? ==> pc.n in s.names)
    ensures p in Step(s, p, c).procs && Step(s, p, c).procs[p].table == TableAfter(s, p, c)
    ensures
      var pc, pc' := s.procs[p].pc, Step(s, p, c).procs[p].pc;
      if pc.Building? then pc' == (if pc.b == Unlisted then Adding(pc.o, AddLock) else Building(pc.o, NextStage(pc.b)))
      else Calm(pc, pc') || (pc.Choosing? && pc.k !in s.names && pc' == Building(pc.o, Zeroed))
    ensures
      var pc, pc' := s.procs[p].pc, Step(s, p, c).procs[p].pc;
      && (pc.Opening? ==> pc' == (match pc.e
                                   case OpenCount => Opening(pc.q, OpenCheck, pc.w)
                                   case OpenCheck => Opening(pc.q, if s.meta[pc.q].ctr.flag then OpenWait else OpenTrack, pc.w)
                                   case OpenWait => if s.meta[pc.q].ctr.post then Resolving(s.meta[pc.q].num, pc.w) else pc
                                   case OpenTrack => Resume(pc.w)))
      && (pc.Resolving? ==> pc' == if pc.n in s.names then Opening(s.names[pc.n], OpenCount, pc.w) else Fault)
  {
    hide SwapStep, FinishStep, BuildStep, OpenStep, ChooseStep, ReserveStep, DetachStep, ResolveStep, AddStep, RemStep, IdleStep, TypeOk;
    PcTyped(s, p);
    var pc := s.procs[p].pc;
    if pc.Swapping? || pc.Finishing? {
      EndTable(s, p, pc);
    } else if pc.Building? {
      BuildTable(s, p, pc.o, pc.b);
    } else if pc.Opening? {
      OpenTable(s, p, pc.q, pc.e, pc.w);
    } else if pc.Choosing? || pc.Reserving? {
      MakeTable(s, p, pc);
    } else if pc.Detaching? || pc.Resolving? {
      TurnTable(s, p, pc);
    }
  }

  function NextStage(b: BuildStage): BuildStage {
    match b
    case Zeroed => Counted
    case Counted => Marked
    case _ => Unlisted
  }

  lemma EndTable(s: State, p: Proc, pc: Pc)
    requires p in s.procs && (pc.Swapping? || pc.Finishing?) && pc.o in s.meta
    ensures pc.Swapping? ==>
      var t := SwapStep(s, p, pc.o, pc.seen, pc.flagging);
      p in t.procs && t.procs[p].table == s.procs[p].table && Calm(pc, t.procs[p].pc)
    ensures pc.Finishing? ==>
      var t := FinishStep(s, p, pc.o, pc.f);
      p in t.procs && t.procs[p].table == s.procs[p].table && Calm(pc, t.procs[p].pc)
  {
    hide Goto, Write;
    if pc.Swapping? {
      SwapTable(s, p, pc.o, pc.seen, pc.flagging);
    } else {
      FinishTable(s, p, pc.o, pc.f);
    }
  }

  lemma SwapTable(s: State, p: Proc, o: Obj, seen: Counter, flagging: bool)
    requires p in s.procs && o in s.meta
    ensures
      var t := SwapStep(s, p, o, seen, flagging);
      p in t.procs && t.procs[p].table == s.procs[p].table && Calm(Swapping(o, seen, flagging), t.procs[p].pc)
  {}

  lemma FinishTable(s: State, p: Proc, o: Obj, f: FinishStage)
    requires p in s.procs && o in s.meta
    ensures
      var t := FinishStep(s, p, o, f);
      p in t.procs && t.procs[p].table == s.procs[p].table && Calm(Finishing(o, f), t.procs[p].pc)
  {}

  lemma TurnTable(s: State, p: Proc, pc: Pc)
    requires p in s.procs
    ensures pc.Detaching? && pc.o in s.meta ==> var t := DetachStep(s, p, pc.o); p in t.procs && t.procs[p].table == s.procs[p].table
    ensures pc.Resolving? ==> var t := ResolveStep(s, p, pc.n, pc.w); p in t.procs && t.procs[p].table == s.procs[p].table
    ensures pc.Detaching? && pc.o in s.meta ==> Calm(pc, DetachStep(s, p, pc.o).procs[p].pc)
    ensures pc.Resolving? ==> ResolveStep(s, p, pc.n, pc.w).procs[p].pc == if pc.n in s.names then Opening(s.names[pc.n], OpenCount, pc.w) else Fault
  {}

  lemma BuildTable(s: State, p: Proc, o: Obj, b: BuildStage)
    requires p in s.procs && o in s.meta
    ensures var t := BuildStep(s, p, o, b);
      p in t.procs && t.procs[p].table == if b == Unlisted then s.procs[p].table[s.meta[o].num := o] else s.procs[p].table
    ensures BuildStep(s, p, o, b).procs[p].pc == if b == Unlisted then Adding(o, AddLock) else Building(o, NextStage(b))
  {}

  lemma OpenTable(s: State, p: Proc, q: Obj, e: OpenStage, w: OpenCaller)
    requires p in s.procs && q in s.meta
    ensures var t := OpenStep(s, p, q, e, w);
      p in t.procs && t.procs[p].table == if e == OpenTrack then s.procs[p].table[s.meta[q].num := q] else s.procs[p].table
    ensures OpenStep(s, p, q, e, w).procs[p].pc == match e
                                                   case OpenCount => Opening(q, OpenCheck, w)
                                                   case OpenCheck => Opening(q, if s.meta[q].ctr.flag then OpenWait else OpenTrack, w)
                                                   case OpenWait => if s.meta[q].ctr.post then Resolving(s.meta[q].num, w) else s.procs[p].pc
                                                   case OpenTrack => Resume(w)
  {}

  lemma MakeTable(s: State, p: Proc, pc: Pc)
    requires p in s.procs
    ensures pc.Reserving? ==> var t := ReserveStep(s, p, pc.k, pc.size); p in t.procs && t.procs[p].table == s.procs[p].table
    ensures pc.Choosing? ==> var t := ChooseStep(s, p, pc.o, pc.k, pc.size); p in t.procs && t.procs[p].table == s.procs[p].table
    ensures pc.Reserving? ==> Calm(pc, ReserveStep(s, p, pc.k, pc.size).procs[p].pc)
    ensures pc.Choosing? ==>
      ChooseStep(s, p, pc.o, pc.k, pc.size).procs[p].pc == if pc.k in s.names then Choosing(pc.o, NextNumber(pc.k), pc.size) else Building(pc.o, Zeroed)
  {}

  lemma TableIs(s: State, p: Proc, c: Choice)
    requires TypeOk(s) && p in s.procs && (s.procs[p].pc.Resolving? ==> s.procs[p].pc.n in s.names)
    ensures p in Step(s, p, c).procs && Step(s, p, c).procs[p].table == TableAfter(s, p, c)
  {
    hide TypeOk, IdleStep, AddStep, RemStep;
    PcTyped(s, p);
    var pc := s.procs[p].pc;
    if pc.Adding? {
      AddTable(s, p, pc.o, pc.a);
    } else if pc.Removing? {
      RemTable(s, p, pc.o, pc.m, pc.r);
    } else if pc.Idle? {
      IdleTable(s, p, c);
    } else {
      OtherTable(s, p, c);
    }
  }

  lemma OwnOrder(s: State, p: Proc, c: Choice, order: seq<Obj>)
    requires Inv(s) && TypeOk(s) && p in s.procs && OrderOk(s.meta, s.procs[p].table, order)
    requires s.procs[p].pc.Building? ==> s.procs[p].pc.o in s.meta && s.meta[s.procs[p].pc.o].num !in s.procs[p].table
    requires forall o :: o in s.meta ==> o in Step(s, p, c).meta && Step(s, p, c).meta[o].num == s.meta[o].num
    ensures p in Step(s, p, c).procs && OrderOk(Step(s, p, c).meta, Step(s, p, c).procs[p].table, OrderAfter(s, p, c, order))
  {
    hide Names, Counts, Places, Tables, Held, LedgerOk, ListOk, Step, TypeOk, OrderOk;
    TableIs(s, p, c);
    PcTyped(s, p);
    GetProc(s, p);
    var pc, table := s.procs[p].pc, s.procs[p].table;
    if pc.Building? && pc.b == Unlisted {
      Tracks(s.meta, table, order, pc.o);
    } else if pc.Opening? && pc.e == OpenTrack {
      Tracks(s.meta, table, order, pc.q);
    } else if pc.Adding? && pc.a == AddCheck && s.numShared >= s.maxSegs {
      Untracks(s.meta, table, order, s.meta[pc.o].num);
    } else if pc.Idle? && c.Detach? && c.n in table {
      Untracks(s.meta, table, order, c.n);
    }
    SameTracks(s.meta, Step(s, p, c).meta, TableAfter(s, p, c), OrderAfter(s, p, c, order));
  }
}
