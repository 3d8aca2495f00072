/** What one step of the segment protocol changes of the list, of the revision, and
    of the other processes. */
module DirectiveFrames {
  import opened Counters
  import opened Options
  import opened SegmentModel
  import opened SegmentInvariant
  import opened SegmentFrames
  import opened SegmentSafety
  import opened DirectiveModel

  // What the lock holder is doing to the list: nothing, joining a segment to it, or
  // cutting one out (and whether the forward links already pass it by).  A window
  // opens with the first write and closes with the change of the revision.
  datatype Window = Still | Joining(o: Obj) | Cutting(o: Obj, past: bool)

  function WindowOf(h: Pc): Window {
    match h
    case Adding(o, a) => if a == AddPrev || a == AddValid || a == AddLast || a == AddBump then Joining(o) else Still
    case Removing(o, m, _) =>
      if m == RemFixPrev then Cutting(o, false)
      else if m == RemFixNext || m == RemReset || m == RemCount || m == RemBump then Cutting(o, true)
      else Still
    case _ => Still
  }

  function Now(s: State): Window {
    WindowOf(Holder(s.owner, s.procs))
  }

  // How a step moves the window, and the list with it.
  ghost predicate WindowMoves(before: Window, after: Window, c: seq<Obj>, c': seq<Obj>, bump: bool) {
    || (after == before && c' == c && !bump)
    || (before.Still? && after.Joining? && c' == c + [after.o] && !bump)
    || (before.Still? && after.Cutting? && !after.past && c' == c && after.o in c && !bump)
    || (before.Cutting? && !before.past && after == Cutting(before.o, true) && c' == Without(c, before.o) && !bump)
    || (!before.Still? && after.Still? && c' == c && bump)
  }

  // The process is inside a window of its own.
  predicate Editing(b: Pc) {
    match b
    case Adding(_, a) => a == AddLink || a == AddPrev || a == AddValid || a == AddLast || a == AddBump
    case Removing(_, m, _) => m == RemFixPrev || m == RemFixNext || m == RemReset || m == RemCount || m == RemBump
    case _ => false
  }

  // A step of `p`, as the other processes see it.
  ghost predicate Moved(s: State, t: State, p: Proc) {
    && p in s.procs && t.procs.Keys == s.procs.Keys
    && (forall q :: q in s.procs && q != p ==> t.procs[q] == s.procs[q])
    && (forall o :: o in s.meta ==> o in t.meta && t.meta[o].num == s.meta[o].num)
    && (forall o, q :: o in s.meta && o in t.meta && q in s.meta[o].trackers && q != p && s.meta[o].invalid ==> t.meta[o].invalid)
    && (s.owner.Some? && s.owner.value != p ==> t.owner == s.owner && t.fchain == s.fchain && t.last == s.last && t.rev == s.rev)
    && t.rev == (if Bumps(s.procs[p].pc) then NextRev(s.rev) else s.rev)
    && WindowMoves(Now(s), Now(t), s.fchain, t.fchain, Bumps(s.procs[p].pc))
  }

  // A step that touches neither the list nor the revision, and neither opens nor
  // closes a window.
  ghost predicate Aside(s: State, t: State, p: Proc) {
    && p in s.procs && p in t.procs && t.procs == s.procs[p := t.procs[p]]
    && (forall o :: o in s.meta ==> o in t.meta && t.meta[o].num == s.meta[o].num && (s.meta[o].invalid ==> t.meta[o].invalid))
    && t.fchain == s.fchain && t.last == s.last && t.rev == s.rev
    && (s.owner.Some? && s.owner.value != p ==> t.owner == s.owner)
    && (t.owner.Some? && t.owner.value != p ==> t.owner == s.owner)
    && WindowOf(Base(t.procs[p].pc)) == WindowOf(Base(s.procs[p].pc))
    && (s.owner != Some(p) || t.owner != Some(p) ==> WindowOf(Base(s.procs[p].pc)) == Still)
  }

  lemma AsideMoves(s: State, t: State, p: Proc)
    requires Aside(s, t, p) && !Bumps(s.procs[p].pc) && LockOk(s)
    ensures Moved(s, t, p)
  {}

  // Outside the lock there is no window.
  lemma NoWindow(s: State, p: Proc)
    requires Inv(s) && p in s.procs
    ensures s.owner != Some(p) ==> WindowOf(Base(s.procs[p].pc)) == Still && !Critical(s.procs[p].pc)
    ensures LockOk(s)
  {
    hide Names, Counts, Places, Tables, Held, LedgerOk, ListOk;
    GetProc(s, p);
  }

  // ----- the changes steps are made of -----

  // `p` may go on to `pc` without opening or closing a window.
  predicate Level(s: State, p: Proc, pc: Pc)
    requires p in s.procs
  {
    && WindowOf(Base(pc)) == WindowOf(Base(s.procs[p].pc))
    && (s.owner == Some(p) || WindowOf(Base(pc)) == Still)
  }

  lemma Goes(s: State, p: Proc, x: Process)
    requires p in s.procs && Level(s, p, x.pc)
    ensures Aside(s, s.(procs := s.procs[p := x]), p)
  {}

  lemma Writes(s: State, p: Proc, x: Process, o: Obj, m: Meta)
    requires p in s.procs && Level(s, p, x.pc)
    requires o in s.meta ==> m.num == s.meta[o].num && (s.meta[o].invalid ==> m.invalid)
    ensures Aside(s, Write(s, o, m).(procs := s.procs[p := x]), p)
  {}

  lemma GoesOn(s: State, p: Proc, pc: Pc)
    requires p in s.procs && Level(s, p, pc)
    ensures Aside(s, Goto(s, p, pc), p)
  {
    hide Aside;
    Goes(s, p, s.procs[p].(pc := pc));
  }

  lemma CountsOn(s: State, p: Proc, n: int, pc: Pc)
    requires p in s.procs && Level(s, p, pc)
    ensures Aside(s, Goto(s.(numShared := n), p, pc), p)
  {
    hide Aside;
    Goes(s, p, s.procs[p].(pc := pc));
    Beside(s, s.(procs := s.procs[p := s.procs[p].(pc := pc)]), Goto(s.(numShared := n), p, pc), p);
  }

  lemma WritesOn(s: State, p: Proc, o: Obj, m: Meta, pc: Pc)
    requires p in s.procs && Level(s, p, pc)
    requires o in s.meta ==> m.num == s.meta[o].num && (s.meta[o].invalid ==> m.invalid)
    ensures p in Write(s, o, m).procs && Aside(s, Goto(Write(s, o, m), p, pc), p)
  {
    hide Aside;
    Writes(s, p, s.procs[p].(pc := pc), o, m);
  }

  // The same with other parts of the state changed that nobody's list depends on.
  lemma Beside(s: State, u: State, t: State, p: Proc)
    requires Aside(s, u, p)
    requires t.procs == u.procs && t.meta == u.meta && t.fchain == u.fchain && t.last == u.last && t.rev == u.rev && t.owner == u.owner
    ensures Aside(s, t, p)
  {}

  lemma Locks(s: State, p: Proc, pc: Pc)
    requires p in s.procs && CanLock(s, p) && WindowOf(Base(pc)) == WindowOf(Base(s.procs[p].pc)) == Still
    ensures Aside(s, Goto(Acquire(s, p), p, pc), p)
  {}

  lemma Unlocks(s: State, p: Proc, pc: Pc)
    requires p in s.procs && WindowOf(Base(pc)) == WindowOf(Base(s.procs[p].pc)) == Still
    ensures Aside(s, Goto(Release(s, p), p, pc), p)
  {}

  // ----- each kind of step -----

  lemma IdleAside(s: State, p: Proc, c: Choice)
    requires TypeOk(s) && p in s.procs && s.procs[p].pc == Idle
    ensures Aside(s, IdleStep(s, p, c), p)
  {
    hide Aside, TypeOk;
    var x := s.procs[p];
    assert s.(procs := s.procs[p := x]) == s;
    Goes(s, p, x);
    match c
    case Lock =>
      if CanLock(s, p) {
        Locks(s, p, Idle);
        assert Goto(Acquire(s, p), p, Idle) == Acquire(s, p);
      }
    case Unlock =>
      Unlocks(s, p, Idle);
      assert Goto(Release(s, p), p, Idle) == Release(s, p);
    case Create(size) => Goes(s, p, x.(pc := Reserving(NextNumber(s.last), size)));
    case Detach(n) =>
      if n in x.table {
        Goes(s, p, Process(Detaching(x.table[n]), x.table - {n}));
      }
    case RemoveShared(n) =>
      if n in x.table {
        Goes(s, p, x.(pc := Removing(x.table[n], RemPeek, Explicit)));
      }
    case OpenFirst => Goes(s, p, x.(pc := Resolving(s.first, ForWalk)));
    case OpenLast => Goes(s, p, x.(pc := Resolving(s.last, ForWalk)));
    case OpenNext(n) =>
      if n in x.table {
        NextTyped(s, p, n);
        Goes(s, p, x.(pc := Resolving(s.meta[x.table[n]].next, ForWalk)));
      }
  }

  lemma NextTyped(s: State, p: Proc, n: int)
    requires TypeOk(s) && p in s.procs && n in s.procs[p].table
    ensures s.procs[p].table[n] in s.meta
  {}

  lemma CreateAside(s: State, p: Proc, k: int, size: nat)
    requires p in s.procs && s.procs[p].pc == Reserving(k, size)
    ensures Aside(s, ReserveStep(s, p, k, size), p)
  {
    hide Aside;
    var x, t := s.procs[p], ReserveStep(s, p, k, size);
    Goes(s, p, x.(pc := t.procs[p].pc));
    Beside(s, s.(procs := s.procs[p := x.(pc := t.procs[p].pc)]), t, p);
  }

  lemma ChooseAside(s: State, p: Proc, o: Obj, k: int, size: nat)
    requires p in s.procs && s.procs[p].pc == Choosing(o, k, size) && o !in s.meta
    ensures Aside(s, ChooseStep(s, p, o, k, size), p)
  {
    hide Aside;
    var x, t := s.procs[p], ChooseStep(s, p, o, k, size);
    var y := x.(pc := t.procs[p].pc);
    if k in s.names {
      Goes(s, p, y);
    } else {
      Writes(s, p, y, o, t.meta[o]);
      Beside(s, Write(s, o, t.meta[o]).(procs := s.procs[p := y]), t, p);
    }
  }

  lemma BuildAside(s: State, p: Proc, o: Obj, b: BuildStage)
    requires p in s.procs && s.procs[p].pc == Building(o, b) && o in s.meta
    ensures Aside(s, BuildStep(s, p, o, b), p)
  {
    hide Aside;
    var t := BuildStep(s, p, o, b);
    if b == Unlisted {
      Goes(s, p, t.procs[p]);
    } else {
      Writes(s, p, t.procs[p], o, t.meta[o]);
    }
  }

  lemma OpenAside(s: State, p: Proc, q: Obj, e: OpenStage, w: OpenCaller)
    requires p in s.procs && s.procs[p].pc == Opening(q, e, w) && s.owner == Some(p) && q in s.meta && e != OpenWait
    ensures Aside(s, OpenStep(s, p, q, e, w), p)
  {
    hide Aside;
    var t := OpenStep(s, p, q, e, w);
    if e == OpenCount {
      Writes(s, p, t.procs[p], q, t.meta[q]);
    } else {
      Goes(s, p, t.procs[p]);
    }
  }

  lemma DetachAside(s: State, p: Proc, o: Obj)
    requires p in s.procs && s.procs[p].pc == Detaching(o) && o in s.meta
    ensures Aside(s, DetachStep(s, p, o), p)
  {
    hide Aside;
    Goes(s, p, DetachStep(s, p, o).procs[p]);
  }

  lemma SwapAside(s: State, p: Proc, o: Obj, seen: Counter, flagging: bool)
    requires p in s.procs && s.procs[p].pc == Swapping(o, seen, flagging) && o in s.meta
    ensures Aside(s, SwapStep(s, p, o, seen, flagging), p)
  {
    hide Aside;
    var t := SwapStep(s, p, o, seen, flagging);
    if s.meta[o].ctr != seen {
      Goes(s, p, t.procs[p]);
    } else {
      Writes(s, p, t.procs[p], o, t.meta[o]);
    }
  }

  lemma FinishAside(s: State, p: Proc, o: Obj, f: FinishStage)
    requires p in s.procs && s.procs[p].pc == Finishing(o, f) && o in s.meta
    ensures Aside(s, FinishStep(s, p, o, f), p)
  {
    hide Aside;
    var t := FinishStep(s, p, o, f);
    var y := t.procs[p];
    match f
    case Unlink =>
      var n := s.meta[o].num;
      if n in s.names && s.names[n] in s.meta {
        var gone := s.names[n];
        Writes(s, p, y, gone, t.meta[gone]);
        Beside(s, Write(s, gone, t.meta[gone]).(procs := s.procs[p := y]), t, p);
      } else {
        Goes(s, p, y);
      }
    case Post => Writes(s, p, y, o, t.meta[o]);
    case Refund =>
      Goes(s, p, y);
      Beside(s, s.(procs := s.procs[p := y]), t, p);
  }

  // Appending and removing, away from the writes to the list and the revision.
  lemma AddAside(s: State, p: Proc, o: Obj, a: AddStage)
    requires TypeOk(s) && p in s.procs && s.procs[p].pc == Adding(o, a) && o in s.meta
    requires a == AddLock || (s.owner == Some(p) && (a == AddCheck || a == AddPrev || a == AddUnlock))
    ensures Aside(s, AddStep(s, p, o, a), p)
  {
    hide Aside, TypeOk, Goto, Acquire, Release, Write;
    if a == AddLock {
      if CanLock(s, p) {
        Locks(s, p, Adding(o, AddCheck));
      } else {
        Goes(s, p, s.procs[p]);
        assert s.(procs := s.procs[p := s.procs[p]]) == s;
      }
    } else if a == AddCheck {
      if s.numShared >= s.maxSegs {
        Goes(s, p, Process(Detaching(o), s.procs[p].table - {s.meta[o].num}));
      } else {
        CountsOn(s, p, s.numShared + 1, Adding(o, AddLink));
      }
    } else if a == AddPrev {
      WritesOn(s, p, o, s.meta[o].(prev := s.last), Adding(o, AddValid));
    } else {
      Unlocks(s, p, Idle);
    }
  }

  lemma RemAside(s: State, p: Proc, o: Obj, m: RemStage, r: RemoveCaller)
    requires TypeOk(s) && p in s.procs && s.procs[p].pc == Removing(o, m, r) && o in s.meta
    requires m == RemPeek || m == RemLock || (s.owner == Some(p) && (m == RemCheck || m == RemUnlock))
    ensures Aside(s, RemStep(s, p, o, m, r), p)
  {
    hide Aside, TypeOk, Goto, Acquire, Release;
    if m == RemLock {
      if CanLock(s, p) {
        Locks(s, p, Removing(o, RemCheck, r));
      } else {
        Goes(s, p, s.procs[p]);
        assert s.(procs := s.procs[p := s.procs[p]]) == s;
      }
    } else if m == RemUnlock {
      Unlocks(s, p, AfterRemove(o, r));
    } else if m == RemPeek {
      GoesOn(s, p, if s.meta[o].invalid then AfterRemove(o, r) else Removing(o, RemLock, r));
    } else {
      GoesOn(s, p, Removing(o, if s.meta[o].invalid then RemUnlock else RemMark, r));
    }
  }

  lemma ResetAside(s: State, p: Proc, o: Obj, m: RemStage, r: RemoveCaller)
    requires TypeOk(s) && p in s.procs && s.procs[p].pc == Removing(o, m, r) && o in s.meta && s.owner == Some(p)
    requires m == RemReset || m == RemCount
    ensures Aside(s, RemStep(s, p, o, m, r), p)
  {
    hide Aside, TypeOk;
    var t := RemStep(s, p, o, m, r);
    var y := t.procs[p];
    if m == RemReset {
      Writes(s, p, y, o, t.meta[o]);
    } else {
      Goes(s, p, y);
      Beside(s, s.(procs := s.procs[p := y]), t, p);
    }
  }

  // ----- the writes to the list and the revision -----

  // A step of the lock holder `p` that rewrites segment `z` (or none).
  lemma Edits(s: State, t: State, p: Proc, z: Obj)
    requires p in s.procs && p in t.procs && t.procs == s.procs[p := t.procs[p]] && s.owner == Some(p) == t.owner
    requires forall o :: o in s.meta ==> o in t.meta && t.meta[o].num == s.meta[o].num
    requires forall o :: o in s.meta && o != z ==> t.meta[o] == s.meta[o]
    requires z in s.meta && s.meta[z].invalid ==> t.meta[z].invalid || s.meta[z].trackers <= {p}
    requires t.rev == (if Bumps(s.procs[p].pc) then NextRev(s.rev) else s.rev)
    requires WindowMoves(WindowOf(Base(s.procs[p].pc)), WindowOf(Base(t.procs[p].pc)), s.fchain, t.fchain, Bumps(s.procs[p].pc))
    ensures Moved(s, t, p)
  {}

  lemma AddMoves(s: State, p: Proc, o: Obj, a: AddStage)
    requires TypeOk(s) && p in s.procs && s.procs[p].pc == Adding(o, a) && o in s.meta && s.owner == Some(p)
    requires a == AddLast || a == AddBump || (a == AddValid && s.meta[o].trackers == {p})
    ensures Moved(s, AddStep(s, p, o, a), p)
  {
    hide Moved, TypeOk;
    Edits(s, AddStep(s, p, o, a), p, o);
  }

  lemma LinkMoves(s: State, p: Proc, o: Obj)
    requires TypeOk(s) && p in s.procs && s.procs[p].pc == Adding(o, AddLink) && o in s.meta && s.owner == Some(p) && LockOk(s)
    ensures Moved(s, AddLinkStep(s, p, o), p)
  {
    hide Moved, Aside;
    var t := AddLinkStep(s, p, o);
    if s.first == NO_SEG {
      Edits(s, t, p, o);
    } else if s.last in s.procs[p].table {
      Edits(s, t, p, s.procs[p].table[s.last]);
    } else {
      Goes(s, p, t.procs[p]);
      AsideMoves(s, t, p);
    }
  }

  lemma RemMoves(s: State, p: Proc, o: Obj, m: RemStage, r: RemoveCaller)
    requires TypeOk(s) && p in s.procs && s.procs[p].pc == Removing(o, m, r) && o in s.meta && s.owner == Some(p)
    requires m == RemBump || (m == RemMark && o in s.fchain)
    ensures Moved(s, RemStep(s, p, o, m, r), p)
  {
    hide Moved, TypeOk;
    Edits(s, RemStep(s, p, o, m, r), p, o);
  }

  lemma Went(u: State, p: Proc, pc: Pc)
    requires p in u.procs
    ensures
      var t := Goto(u, p, pc);
      && t.procs == u.procs[p := u.procs[p].(pc := pc)] && t.meta == u.meta
      && t.owner == u.owner && t.rev == u.rev && t.fchain == u.fchain
  {}

  lemma Wrote(u: State, z: Obj, m: Meta)
    ensures
      var t := Write(u, z, m);
      t.procs == u.procs && t.meta == u.meta[z := m] && t.owner == u.owner && t.rev == u.rev && t.fchain == u.fchain
  {}

  lemma PrevMoves(s: State, p: Proc, o: Obj, r: RemoveCaller)
    requires TypeOk(s) && p in s.procs && s.procs[p].pc == Removing(o, RemFixPrev, r) && o in s.meta && s.owner == Some(p) && LockOk(s)
    ensures Moved(s, FixPrevStep(s, p, o, r), p)
  {
    hide Moved, Aside, Goto, Write, TypeOk, Without;
    var t, x, table := FixPrevStep(s, p, o, r), s.meta[o], s.procs[p].table;
    var c := Without(s.fchain, o);
    var pc := Removing(o, RemFixNext, r);
    if x.num == s.first {
      Went(s.(first := x.next, fchain := c), p, pc);
      Edits(s, t, p, o);
    } else if x.prev in table {
      NextTyped(s, p, x.prev);
      var z := table[x.prev];
      var m := s.meta[z].(next := x.next);
      Wrote(s.(fchain := c), z, m);
      Went(Write(s.(fchain := c), z, m), p, pc);
      Edits(s, t, p, z);
    } else {
      Went(s, p, Resolving(x.prev, ForPrev(o, r)));
      ResolvesOn(s, p, Resolving(x.prev, ForPrev(o, r)));
    }
  }

  // A neighbour that is not tracked yet is looked up first.
  lemma ResolvesOn(s: State, p: Proc, pc: Pc)
    requires p in s.procs && s.owner == Some(p) && LockOk(s) && WindowOf(Base(pc)) == WindowOf(Base(s.procs[p].pc)) && !Bumps(s.procs[p].pc)
    ensures Moved(s, Goto(s, p, pc), p)
  {
    hide Moved, Aside;
    Goes(s, p, s.procs[p].(pc := pc));
    AsideMoves(s, Goto(s, p, pc), p);
  }

  lemma NextMoves(s: State, p: Proc, o: Obj, r: RemoveCaller)
    requires TypeOk(s) && p in s.procs && s.procs[p].pc == Removing(o, RemFixNext, r) && o in s.meta && s.owner == Some(p) && LockOk(s)
    ensures Moved(s, FixNextStep(s, p, o, r), p)
  {
    hide Moved, Aside, Goto, Write, TypeOk, Without;
    var t, x, table := FixNextStep(s, p, o, r), s.meta[o], s.procs[p].table;
    var c := Without(s.bchain, o);
    var pc := Removing(o, RemReset, r);
    if x.num == s.last {
      Went(s.(last := x.prev, bchain := c), p, pc);
      Edits(s, t, p, o);
    } else if x.next in table {
      NextTyped(s, p, x.next);
      var z := table[x.next];
      var m := s.meta[z].(prev := x.prev);
      Wrote(s.(bchain := c), z, m);
      Went(Write(s.(bchain := c), z, m), p, pc);
      Edits(s, t, p, z);
    } else {
      Went(s, p, Resolving(x.next, ForNext(o, r)));
      ResolvesOn(s, p, Resolving(x.next, ForNext(o, r)));
    }
  }

  // ----- every step -----

  lemma AddingMoves(s: State, p: Proc, o: Obj, a: AddStage)
    requires Inv(s) && TypeOk(s) && p in s.procs && s.procs[p].pc == Adding(o, a) && o in s.meta
    ensures Moved(s, AddStep(s, p, o, a), p)
  {
    hide Moved, Aside, TypeOk, Names, Counts, Places, Tables, Held, LedgerOk, ListOk;
    NoWindow(s, p);
    GetProc(s, p);
    if a == AddLink {
      LinkMoves(s, p, o);
    } else if a == AddValid || a == AddLast || a == AddBump {
      AddMoves(s, p, o, a);
    } else {
      AddAside(s, p, o, a);
      AsideMoves(s, AddStep(s, p, o, a), p);
    }
  }

  lemma MarkFinds(s: State, p: Proc, o: Obj, r: RemoveCaller)
    requires Inv(s) && p in s.procs && s.procs[p].pc == Removing(o, RemMark, r) && o in s.meta
    ensures o in s.fchain
  {
    hide Names, Counts, Tables, Held, LedgerOk, ListOk;
    GetProc(s, p);
    assert Place(s, o);
    assert !UnmarkedBy(s.procs, s.creator, o) by {
      if UnmarkedBy(s.procs, s.creator, o) {
        GetProc(s, s.creator[o]);
      }
    }
  }

  lemma RemovingMoves(s: State, p: Proc, o: Obj, m: RemStage, r: RemoveCaller)
    requires Inv(s) && TypeOk(s) && p in s.procs && s.procs[p].pc == Removing(o, m, r) && o in s.meta
    ensures Moved(s, RemStep(s, p, o, m, r), p)
  {
    hide Moved, Aside, TypeOk, Names, Counts, Places, Tables, Held, LedgerOk, ListOk;
    NoWindow(s, p);
    GetProc(s, p);
    if m == RemFixPrev {
      PrevMoves(s, p, o, r);
    } else if m == RemFixNext {
      NextMoves(s, p, o, r);
    } else if m == RemBump || m == RemMark {
      if m == RemMark {
        MarkFinds(s, p, o, r);
      }
      RemMoves(s, p, o, m, r);
    } else if m == RemReset || m == RemCount {
      ResetAside(s, p, o, m, r);
      AsideMoves(s, RemStep(s, p, o, m, r), p);
    } else {
      RemAside(s, p, o, m, r);
      AsideMoves(s, RemStep(s, p, o, m, r), p);
    }
  }

  lemma OpeningMoves(s: State, p: Proc, c: Choice)
    requires Inv(s) && TypeOk(s) && p in s.procs && (s.procs[p].pc.Resolving? || s.procs[p].pc.Opening?)
    ensures Moved(s, Step(s, p, c), p)
  {
    hide Moved, Aside, TypeOk, Names, Counts, Places, Tables, Held, LedgerOk, ListOk;
    NoWindow(s, p);
    GetProc(s, p);
    match s.procs[p].pc
    case Resolving(n, w) =>
      Goes(s, p, s.procs[p].(pc := SegmentModel.Opening(s.names[n], OpenCount, w)));
      AsideMoves(s, Step(s, p, c), p);
    case Opening(q, e, w) =>
      OpenAside(s, p, q, e, w);
      AsideMoves(s, Step(s, p, c), p);
  }

  lemma OtherMoves(s: State, p: Proc, c: Choice)
    requires Inv(s) && TypeOk(s) && p in s.procs
    requires var pc := s.procs[p].pc; !pc.Adding? && !pc.Removing? && !pc.Resolving? && !pc.Opening?
    ensures Moved(s, Step(s, p, c), p)
  {
    hide Moved, Aside, Inv, TypeOk, IdleStep, DetachStep, SwapStep, FinishStep, BuildStep, ReserveStep, ChooseStep;
    NoWindow(s, p);
    NotFault(s, p);
    PcTyped(s, p);
    var t := Step(s, p, c);
    if s.procs[p].pc == Idle {
      IdleAside(s, p, c);
    } else if s.procs[p].pc.Reserving? {
      CreateAside(s, p, s.procs[p].pc.k, s.procs[p].pc.size);
    } else if s.procs[p].pc.Choosing? {
      NotYet(s, p);
      ChooseAside(s, p, s.procs[p].pc.o, s.procs[p].pc.k, s.procs[p].pc.size);
    } else if s.procs[p].pc.Building? {
      BuildAside(s, p, s.procs[p].pc.o, s.procs[p].pc.b);
    } else if s.procs[p].pc.Detaching? {
      DetachAside(s, p, s.procs[p].pc.o);
    } else if s.procs[p].pc.Swapping? {
      SwapAside(s, p, s.procs[p].pc.o, s.procs[p].pc.seen, s.procs[p].pc.flagging);
    } else {
      FinishAside(s, p, s.procs[p].pc.o, s.procs[p].pc.f);
    }
    AsideMoves(s, t, p);
  }

  lemma NotYet(s: State, p: Proc)
    requires Inv(s) && p in s.procs && s.procs[p].pc.Choosing?
    ensures s.procs[p].pc.o !in s.meta
  {
    hide Names, Counts, Places, Tables, Held, LedgerOk, ListOk;
    GetProc(s, p);
  }

  lemma StepMoves(s: State, p: Proc, c: Choice)
    requires Inv(s) && TypeOk(s) && p in s.procs
    ensures Moved(s, Step(s, p, c), p)
  {
    hide Moved, Inv, TypeOk, AddStep, RemStep;
    PcTyped(s, p);
    var pc := s.procs[p].pc;
    if pc.Adding? {
      AddingMoves(s, p, pc.o, pc.a);
    } else if pc.Removing? {
      RemovingMoves(s, p, pc.o, pc.m, pc.r);
    } else if pc.Resolving? || pc.Opening? {
      OpeningMoves(s, p, c);
    } else {
      OtherMoves(s, p, c);
    }
  }
}
