/** What a removal and a detach attain when the process is left to run. */
module SegmentGiveUp {
  import opened Counters
  import opened Options
  import opened SegmentModel
  import opened SegmentInvariant
  import opened SegmentFrames
  import opened SegmentLists
  import opened SegmentSafety
  import opened SegmentAccounts
  import opened SegmentTheorems
  import opened SegmentTestSteps
  import opened SegmentLeaveSteps
  import opened SegmentLocks
  import opened SegmentRank
  import opened SegmentAlone
  import opened DirectiveFrames
  import opened DirectiveSteps
  import opened DirectiveDeeds

  // ----- removing from the list -----

  // Up to the write that lets the forward links pass it by, the segment is listed.
  predicate Before(m: RemStage) {
    m == RemPeek || m == RemLock || m == RemCheck || m == RemMark || m == RemFixPrev
  }

  // Past that write, and before the change of the revision.
  predicate After(m: RemStage) {
    m == RemFixNext || m == RemReset || m == RemCount || m == RemBump
  }

  // The revision after a removal: it changes if there is something to remove.
  function RevCut(s: State, o: Obj): nat {
    if o in s.fchain then NextRev(s.rev) else s.rev
  }

  // A removal of `o` that began in state `s`, on behalf of `r`: `rest` is the process's
  // counter word of the segment, which a removal leaves alone.
  ghost predicate Removal(s: State, u: State, p: Proc, o: Obj, r: RemoveCaller, m: RemStage) {
    && p in u.procs && o in s.meta && o in u.meta && u.meta[o].ctr == s.meta[o].ctr && u.meta[o].trackers == s.meta[o].trackers
    && u.meta[o].num == s.meta[o].num && u.meta[o].size == s.meta[o].size && u.meta[o].unlinks == s.meta[o].unlinks
    && u.names == s.names && u.total == s.total && u.live == s.live
    && u.fchain == (if Before(m) then s.fchain else Without(s.fchain, o))
    && u.rev == (if m == RemUnlock then RevCut(s, o) else s.rev) && (After(m) ==> o in s.fchain)
    && (forall n, q :: p in s.procs && InTable(s.procs[p].table, n, q) ==> InTable(u.procs[p].table, n, q))
    && Base(u.procs[p].pc) == Removing(o, m, r)
  }

  // It is over, and the segment is invalid and not listed.
  ghost predicate Removed(s: State, t: State, p: Proc, o: Obj, r: RemoveCaller) {
    && p in t.procs && o in s.meta && o in t.meta && t.meta[o].ctr == s.meta[o].ctr && t.meta[o].trackers == s.meta[o].trackers
    && t.meta[o].num == s.meta[o].num && t.meta[o].size == s.meta[o].size && t.meta[o].unlinks == s.meta[o].unlinks
    && t.names == s.names && t.total == s.total && t.live == s.live
    && t.fchain == Without(s.fchain, o) && t.meta[o].invalid && t.rev == RevCut(s, o)
    && (forall n, q :: p in s.procs && InTable(s.procs[p].table, n, q) ==> InTable(t.procs[p].table, n, q))
    && t.procs[p].pc == AfterRemove(o, r)
  }

  lemma {:induction false} WithoutNone(c: seq<Obj>, o: Obj)
    requires o !in c
    ensures Without(c, o) == c
  {
    if c != [] {
      WithoutNone(c[1..], o);
      assert c == [c[0]] + c[1..];
    }
  }

  // What a step of a removal leaves alone.
  ghost predicate Spares(s: State, t: State, o: Obj) {
    && o in s.meta && o in t.meta && t.meta[o].ctr == s.meta[o].ctr && t.meta[o].trackers == s.meta[o].trackers
    && t.meta[o].num == s.meta[o].num && t.meta[o].size == s.meta[o].size && t.meta[o].unlinks == s.meta[o].unlinks
    && t.names == s.names && t.total == s.total && t.live == s.live
  }

  lemma GoSpares(u: State, p: Proc, pc: Pc, o: Obj)
    requires p in u.procs && o in u.meta
    ensures Spares(u, Goto(u, p, pc), o) && Goto(u, p, pc).meta == u.meta && Goto(u, p, pc).rev == u.rev
  {}

  lemma WriteSpares(s: State, z: Obj, m: Meta, p: Proc, pc: Pc, o: Obj)
    requires p in s.procs && o in s.meta && z in s.meta
    requires m.ctr == s.meta[z].ctr && m.trackers == s.meta[z].trackers && m.num == s.meta[z].num && m.size == s.meta[z].size && m.unlinks == s.meta[z].unlinks
    ensures p in Write(s, z, m).procs && Spares(s, Goto(Write(s, z, m), p, pc), o) && Goto(Write(s, z, m), p, pc).meta == s.meta[z := m]
    ensures Goto(Write(s, z, m), p, pc).rev == s.rev
  {}

  lemma RemSpares(s: State, p: Proc, o: Obj, m: RemStage, r: RemoveCaller)
    requires TypeOk(s) && p in s.procs && s.procs[p].pc == Removing(o, m, r) && o in s.meta
    ensures Spares(s, RemStep(s, p, o, m, r), o)
    ensures m != RemMark ==> RemStep(s, p, o, m, r).meta[o].invalid == s.meta[o].invalid
    ensures RemStep(s, p, o, m, r).rev == if m == RemBump then NextRev(s.rev) else s.rev
  {
    hide TypeOk, Goto, Write, Release, FixPrevStep, FixNextStep;
    var x := s.meta[o];
    match m
    case RemPeek => GoSpares(s, p, if x.invalid then AfterRemove(o, r) else Removing(o, RemLock, r), o);
    case RemLock => if CanLock(s, p) { GoSpares(Acquire(s, p), p, Removing(o, RemCheck, r), o); }
    case RemCheck => GoSpares(s, p, Removing(o, if x.invalid then RemUnlock else RemMark, r), o);
    case RemMark => WriteSpares(s, o, x.(invalid := true), p, Removing(o, RemFixPrev, r), o);
    case RemFixPrev => PrevSpares(s, p, o, r);
    case RemFixNext => NextSpares(s, p, o, r);
    case RemReset => WriteSpares(s, o, x.(next := NO_SEG, prev := NO_SEG), p, Removing(o, RemCount, r), o);
    case RemCount => GoSpares(s.(numShared := s.numShared - 1), p, Removing(o, RemBump, r), o);
    case RemBump => GoSpares(s.(rev := NextRev(s.rev)), p, Removing(o, RemUnlock, r), o);
    case RemUnlock =>
      ReleaseParts(s, p);
      GoSpares(Release(s, p), p, AfterRemove(o, r), o);
  }

  lemma PrevSpares(s: State, p: Proc, o: Obj, r: RemoveCaller)
    requires TypeOk(s) && p in s.procs && o in s.meta
    ensures Spares(s, FixPrevStep(s, p, o, r), o) && FixPrevStep(s, p, o, r).meta[o].invalid == s.meta[o].invalid
    ensures FixPrevStep(s, p, o, r).rev == s.rev
  {
    hide TypeOk, Goto, Write, Without;
    var x, table, u := s.meta[o], s.procs[p].table, s.(fchain := Without(s.fchain, o));
    if x.num == s.first {
      GoSpares(s.(first := x.next, fchain := Without(s.fchain, o)), p, Removing(o, RemFixNext, r), o);
    } else if x.prev in table {
      NextTyped(s, p, x.prev);
      WriteSpares(u, table[x.prev], s.meta[table[x.prev]].(next := x.next), p, Removing(o, RemFixNext, r), o);
    } else {
      GoSpares(s, p, Resolving(x.prev, ForPrev(o, r)), o);
    }
  }

  lemma NextSpares(s: State, p: Proc, o: Obj, r: RemoveCaller)
    requires TypeOk(s) && p in s.procs && o in s.meta
    ensures Spares(s, FixNextStep(s, p, o, r), o) && FixNextStep(s, p, o, r).meta[o].invalid == s.meta[o].invalid
    ensures FixNextStep(s, p, o, r).rev == s.rev
  {
    hide TypeOk, Goto, Write, Without;
    var x, table, u := s.meta[o], s.procs[p].table, s.(bchain := Without(s.bchain, o));
    if x.num == s.last {
      GoSpares(s.(last := x.prev, bchain := Without(s.bchain, o)), p, Removing(o, RemReset, r), o);
    } else if x.next in table {
      NextTyped(s, p, x.next);
      WriteSpares(u, table[x.next], s.meta[table[x.next]].(prev := x.prev), p, Removing(o, RemReset, r), o);
    } else {
      GoSpares(s, p, Resolving(x.next, ForNext(o, r)), o);
    }
  }

  // Outside the sections, an invalid segment is not listed.
  lemma InvalidUnlisted(s: State, p: Proc, o: Obj)
    requires Inv(s) && p in s.procs && CanLock(s, p) && o in s.meta && s.meta[o].invalid
    requires
      var b := Base(s.procs[p].pc);
      !InSection(b) || (b.Removing? && (b.m == RemCheck || b.m == RemUnlock))
    ensures o !in s.fchain && o !in s.bchain
  {
    hide Names, Counts, Procs, Tables, Held, LedgerOk, ListOk;
    assert Place(s, o);
  }

  // The list after a step of a removal.
  lemma RemovalList(c: seq<Obj>, u: State, p: Proc, o: Obj, m: RemStage, r: RemoveCaller)
    requires Inv(u) && TypeOk(u) && p in u.procs && u.procs[p].pc == Removing(o, m, r) && CanLock(u, p) && o in u.meta
    requires u.fchain == if Before(m) then c else Without(c, o)
    ensures
      var t := RemStep(u, p, o, m, r);
      && p in t.procs && o in t.meta
      && if m == RemUnlock || (m == RemPeek && u.meta[o].invalid)
         then t.procs[p].pc == AfterRemove(o, r) && t.fchain == Without(c, o) && t.meta[o].invalid
         else
           var b := Base(t.procs[p].pc);
           b.Removing? && b.o == o && b.r == r && t.fchain == if Before(b.m) then c else Without(c, o)
  {
    hide Inv, TypeOk, RemStep, Without;
    RemTable(u, p, o, m, r);
    RemList(u, p, o, m, r);
    RemSpares(u, p, o, m, r);
    match m
    case RemPeek =>
      if u.meta[o].invalid {
        InvalidUnlisted(u, p, o);
        WithoutNone(c, o);
      }
    case RemLock =>
    case RemCheck =>
      RemCheckGoes(u, p, o, r);
      if u.meta[o].invalid {
        InvalidUnlisted(u, p, o);
        WithoutNone(c, o);
      }
    case RemMark =>
    case RemFixPrev =>
      PrevIs(u, p, o, r);
      PrevList(u, p, o, r);
    case RemFixNext =>
    case RemReset =>
    case RemCount =>
    case RemBump =>
    case RemUnlock => UnlockInvalid(u, p, o, r);
  }

  lemma RemCheckGoes(s: State, p: Proc, o: Obj, r: RemoveCaller)
    requires TypeOk(s) && p in s.procs && o in s.meta
    ensures
      var t := RemStep(s, p, o, RemCheck, r);
      p in t.procs && t.procs[p].pc == Removing(o, if s.meta[o].invalid then RemUnlock else RemMark, r)
  {
    hide TypeOk;
  }

  lemma UnlockInvalid(s: State, p: Proc, o: Obj, r: RemoveCaller)
    requires Inv(s) && p in s.procs && s.procs[p].pc == Removing(o, RemUnlock, r) && o in s.meta
    ensures s.meta[o].invalid
  {
    hide Names, Counts, Places, Tables, Held, LedgerOk, LockOk, ListOk;
    GetProc(s, p);
  }

  lemma PrevIs(s: State, p: Proc, o: Obj, r: RemoveCaller)
    requires TypeOk(s) && p in s.procs && o in s.meta
    ensures RemStep(s, p, o, RemFixPrev, r) == FixPrevStep(s, p, o, r)
  {
    hide FixPrevStep, TypeOk;
  }

  // In the middle of the removal, or done with it.
  ghost predicate InCut(s: State, u: State, p: Proc, o: Obj, r: RemoveCaller) {
    && p in u.procs
    && if Base(u.procs[p].pc).Removing? then Removal(s, u, p, o, r, Base(u.procs[p].pc).m) else Removed(s, u, p, o, r)
  }

  lemma RemovalOpens(s: State, u: State, p: Proc, o: Obj, m: RemStage, r: RemoveCaller)
    requires Inv(u) && TypeOk(u) && p in u.procs && (u.procs[p].pc.Resolving? || u.procs[p].pc.Opening?) && Removal(s, u, p, o, r, m)
    ensures Removal(s, Step(u, p, Lock), p, o, r, m)
  {
    hide Inv, TypeOk, Step, Without;
    OpenParts(u, p);
    OpenApart(u, p);
    assert o in BaseObjs(Resume(u.procs[p].pc.w));
  }

  // The revision after a step of a removal.
  lemma RemovalRev(s: State, u: State, p: Proc, o: Obj, m: RemStage, r: RemoveCaller)
    requires Inv(u) && TypeOk(u) && p in u.procs && u.procs[p].pc == Removing(o, m, r) && CanLock(u, p) && Removal(s, u, p, o, r, m)
    ensures
      var t := RemStep(u, p, o, m, r);
      && p in t.procs
      && if m == RemUnlock || (m == RemPeek && u.meta[o].invalid) then t.rev == RevCut(s, o)
         else
           var b := Base(t.procs[p].pc);
           b.Removing? && t.rev == (if b.m == RemUnlock then RevCut(s, o) else s.rev) && (After(b.m) ==> o in s.fchain)
  {
    hide Inv, TypeOk, RemStep, Without, Spares, AfterRemove;
    RemTable(u, p, o, m, r);
    RemSpares(u, p, o, m, r);
    if m == RemCheck || m == RemPeek {
      if u.meta[o].invalid {
        InvalidUnlisted(u, p, o);
      }
      if m == RemCheck {
        RemCheckGoes(u, p, o, r);
      }
    } else if m == RemFixPrev {
      PrevListed(u, p, o, r);
    }
  }

  lemma PrevListed(s: State, p: Proc, o: Obj, r: RemoveCaller)
    requires Inv(s) && p in s.procs && s.procs[p].pc == Removing(o, RemFixPrev, r)
    ensures o in s.fchain
  {
    hide Names, Counts, Places, Tables, Held, LedgerOk, LockOk, ListOk;
    GetProc(s, p);
  }

  lemma RemovalSteps(s: State, u: State, p: Proc, o: Obj, m: RemStage, r: RemoveCaller)
    requires Inv(u) && TypeOk(u) && p in u.procs && u.procs[p].pc == Removing(o, m, r) && CanLock(u, p) && Removal(s, u, p, o, r, m)
    ensures InCut(s, Step(u, p, Lock), p, o, r)
  {
    hide Inv, TypeOk, RemStep, Without;
    RemovalList(s.fchain, u, p, o, m, r);
    RemSpares(u, p, o, m, r);
    RemTable(u, p, o, m, r);
    RemovalRev(s, u, p, o, m, r);
    AfterBase(o, r);
  }

  lemma AfterBase(o: Obj, r: RemoveCaller)
    ensures !Base(AfterRemove(o, r)).Removing?
  {}

  lemma RemovalKeeps(s: State, u: State, p: Proc, o: Obj, r: RemoveCaller)
    requires Inv(u) && TypeOk(u) && p in u.procs && CanLock(u, p) && InCut(s, u, p, o, r) && Base(u.procs[p].pc).Removing?
    ensures InCut(s, Step(u, p, Lock), p, o, r)
  {
    hide Inv, TypeOk, Step, Without;
    var m := Base(u.procs[p].pc).m;
    if u.procs[p].pc.Removing? {
      RemovalSteps(s, u, p, o, m, r);
    } else {
      BaseOpens(u.procs[p].pc);
      RemovalOpens(s, u, p, o, m, r);
    }
  }

  lemma BaseOpens(pc: Pc)
    ensures Base(pc) != pc ==> pc.Resolving? || pc.Opening?
  {}

  // A removal run alone takes the segment out of the list, if it is in it, leaves it
  // invalid, and gives the lock back.
  lemma RemoveAlone(s: State, p: Proc, n: int) returns (k: nat, t: State)
    requires Reachable(s) && p in s.procs && s.procs[p].pc == Idle && CanLock(s, p) && n in s.procs[p].table
    ensures TypeOk(s) && t == Run(s, Chosen(p, RemoveShared(n), k)) && Works(Step(s, p, RemoveShared(n)), t, p, k)
    ensures p in t.procs && t.procs[p].pc == Idle && t.owner == s.owner && t.level == s.level
    ensures
      var o := s.procs[p].table[n];
      && InTable(t.procs[p].table, n, o) && o in t.meta && t.meta[o].invalid && t.fchain == Without(s.fchain, o) && t.rev == RevCut(s, o)
      && o !in Walk(t, t.first, |s.fchain|) && o !in WalkBack(t, t.last, |s.fchain|)
  {
    hide Reachable, Inv, TypeOk, Accounted, Works, Numbered, Step, LocksOk, Run, Removal, Removed, RevCut, Without, Walk, WalkBack;
    ReachableSafe(s);
    var own := OwnThere(s);
    var o, c := s.procs[p].table[n], RemoveShared(n);
    var u := Step(s, p, c);
    RemoveStarts(s, p, n);
    StepKeeps(s, p, c);
    InvTypes(u);
    LocksKeep(s, p, c, own);
    SameOwners(s, own);
    assert own[p := own[p]] == own;
    var keeps := (v: State) => InCut(s, v, p, o, Explicit) && LocksOk(v, own);
    forall v | keeps(v) && Running(v, p, 0) && v.procs[p].pc != Idle ensures keeps(Step(v, p, Lock)) {
      RemovedIdle(s, v, p, o);
      RemovalKeeps(s, v, p, o, Explicit);
      OwnStays(v, p, own);
    }
    k, t := GetsDone(u, p, 0, keeps);
    ChosenRun(s, t, p, c, k);
    LockKnown(s);
    LockKnown(t);
    LockBack(s, t, p, own);
    ReachesOn(s, t, p, Chosen(p, c, k));
    RemovedThere(s, t, p, o);
    RemovedWalks(s, t, p, o);
  }

  lemma RemoveStarts(s: State, p: Proc, n: int)
    requires TypeOk(s) && p in s.procs && s.procs[p].pc == Idle && n in s.procs[p].table && CanLock(s, p)
    ensures
      var u := Step(s, p, RemoveShared(n));
      && s.procs[p].table[n] in s.meta && p in u.procs && u.procs[p].pc == Removing(s.procs[p].table[n], RemPeek, Explicit)
      && InCut(s, u, p, s.procs[p].table[n], Explicit) && CanLock(u, p) && Numbered(u, p, 0)
  {
    NextTyped(s, p, n);
  }

  lemma RemovedIdle(s: State, u: State, p: Proc, o: Obj)
    requires InCut(s, u, p, o, Explicit) && u.procs[p].pc != Idle
    ensures Base(u.procs[p].pc).Removing? && !u.procs[p].pc.Adding?
  {}

  lemma RemovedThere(s: State, t: State, p: Proc, o: Obj)
    requires InCut(s, t, p, o, Explicit) && t.procs[p].pc == Idle
    ensures o in t.meta && t.meta[o].invalid && t.fchain == Without(s.fchain, o) && t.rev == RevCut(s, o)
    ensures forall n :: p in s.procs && InTable(s.procs[p].table, n, o) ==> InTable(t.procs[p].table, n, o)
  {}

  lemma RemovedWalks(s: State, t: State, p: Proc, o: Obj)
    requires Reachable(t) && Inv(s) && p in t.procs && t.procs[p].pc == Idle && CanLock(t, p) && t.fchain == Without(s.fchain, o)
    ensures o !in Walk(t, t.first, |s.fchain|) && o !in WalkBack(t, t.last, |s.fchain|)
  {
    hide Reachable, Inv, TypeOk, Accounted, Walk, WalkBack, NoDup, Without;
    ReachableSafe(t);
    NoDupChains(s);
    WithoutMembers(s.fchain, o);
    StillIdle(t, p);
    SameChains(t, p);
    WalkVisits(t, |s.fchain|);
  }

  // ----- detaching -----

  // The segment as it was when the detach began, in state `s`.
  ghost predicate Fresh(s: State, u: State, o: Obj) {
    && o in s.meta && o in u.meta && u.meta[o].ctr == s.meta[o].ctr && u.meta[o].trackers == s.meta[o].trackers
    && u.meta[o].num == s.meta[o].num && u.meta[o].size == s.meta[o].size && u.meta[o].unlinks == s.meta[o].unlinks
    && u.names == s.names && u.total == s.total && u.live == s.live
  }

  // The last process out has set the flag, with what is still to be done.
  ghost predicate LastOut(s: State, u: State, p: Proc, o: Obj, unlinked: bool, posted: bool, paid: bool) {
    && o in s.meta && o in u.meta && s.meta[o].trackers == {p} && u.meta[o].trackers == {}
    && u.meta[o].num == s.meta[o].num && u.meta[o].size == s.meta[o].size && u.fchain == Without(s.fchain, o) && u.rev == RevCut(s, o)
    && u.meta[o].ctr.flag && u.meta[o].ctr.post == (posted || s.meta[o].ctr.post)
    && u.names == (if unlinked then s.names - {s.meta[o].num} else s.names)
    && u.meta[o].unlinks == s.meta[o].unlinks + (if unlinked then 1 else 0)
    && u.total == (if paid then s.total - s.meta[o].size else s.total) && u.live == (if paid then s.live - {o} else s.live)
  }

  // Another process is still counted in.
  ghost predicate JustLeft(s: State, u: State, p: Proc, o: Obj) {
    && o in s.meta && o in u.meta && s.meta[o].trackers != {p} && u.meta[o].trackers == s.meta[o].trackers - {p}
    && !u.meta[o].ctr.flag && u.meta[o].ctr.count + 1 == s.meta[o].ctr.count && u.meta[o].num == s.meta[o].num
    && u.names == s.names && u.total == s.total && u.live == s.live && u.fchain == s.fchain && u.rev == s.rev && u.meta[o].unlinks == s.meta[o].unlinks
  }

  ghost predicate Detached(s: State, t: State, p: Proc, o: Obj) {
    JustLeft(s, t, p, o) || LastOut(s, t, p, o, true, true, true)
  }

  ghost predicate InDetach(s: State, u: State, p: Proc, o: Obj) {
    && p in u.procs && o in s.meta
    && (forall n, q :: p in s.procs && InTable(s.procs[p].table, n, q) ==> InTable(u.procs[p].table, n, q))
    && match Base(u.procs[p].pc)
       case Detaching(x) => x == o && Fresh(s, u, o) && u.fchain == s.fchain && u.rev == s.rev
       case Removing(x, m, r) => x == o && r == FromDetach(s.meta[o].ctr) && s.meta[o].trackers == {p} && Removal(s, u, p, o, r, m)
       case Swapping(x, seen, flagging) =>
         && x == o && seen == s.meta[o].ctr && Fresh(s, u, o) && flagging == (s.meta[o].trackers == {p})
         && u.fchain == (if flagging then Without(s.fchain, o) else s.fchain) && u.rev == (if flagging then RevCut(s, o) else s.rev)
       case Finishing(x, f) => x == o && LastOut(s, u, p, o, f != Unlink, f == Refund, false)
       case Idle => u.procs[p].pc == Idle && Detached(s, u, p, o)
       case _ => false
  }

  lemma DetachReads(s: State, u: State, p: Proc, o: Obj)
    requires p in u.procs && Inv(u) && TypeOk(u) && InDetach(s, u, p, o) && u.procs[p].pc.Detaching?
    ensures InDetach(s, Step(u, p, Lock), p, o)
  {
    hide Inv, TypeOk, Goto, Removed, JustLeft, LastOut;
    OnlyCounted(u, p, o);
    DetachEnds(u, p, o);
    GoIs(u, p, if Down(u.meta[o].ctr).count == 0 then Removing(o, RemPeek, FromDetach(u.meta[o].ctr)) else Swapping(o, u.meta[o].ctr, false));
  }

  // The count is one exactly when nobody else is counted in.
  lemma OnlyCounted(s: State, p: Proc, o: Obj)
    requires Inv(s) && p in s.procs && s.procs[p].pc == Detaching(o)
    ensures o in s.meta && !s.meta[o].ctr.flag && (Down(s.meta[o].ctr).count == 0 <==> s.meta[o].trackers == {p})
  {
    hide Names, Places, Tables, Held, LedgerOk, LockOk, ListOk;
    GetProc(s, p);
    hide Procs;
    GetSegment(s, o);
    CountBound(s, o);
    OnlyMember(s.meta[o].trackers, p);
  }

  lemma OnlyMember(members: set<Proc>, p: Proc)
    requires p in members
    ensures |members| == 1 <==> members == {p}
  {
    assert |members - {p}| == |members| - 1;
    if members - {p} == {} {
      assert members == {p};
    }
  }

  lemma DetachSwaps(s: State, u: State, p: Proc, o: Obj)
    requires p in u.procs && Inv(u) && TypeOk(u) && InDetach(s, u, p, o) && u.procs[p].pc.Swapping?
    ensures InDetach(s, Step(u, p, Lock), p, o)
  {
    hide Names, Counts, Places, Procs, Tables, Held, LedgerOk, LockOk, ListOk, TypeOk, Goto, Write, Removal, Without;
    var pc := u.procs[p].pc;
    PcTyped(u, p);
    SwapFacts(u, p, o, pc.seen, pc.flagging);
    SwapGives(u, p, o, pc.seen, pc.flagging);
  }

  lemma SwapGives(s: State, p: Proc, o: Obj, seen: Counter, flagging: bool)
    requires p in s.procs && o in s.meta && s.meta[o].ctr == seen && !seen.flag && 1 <= seen.count < COUNT_WRAP
    requires flagging ==> seen.count == 1
    ensures
      var t, m := SwapStep(s, p, o, seen, flagging), s.meta[o];
      && t == s.(meta := t.meta, procs := s.procs[p := Process(if flagging then Finishing(o, Unlink) else Idle, s.procs[p].table)])
      && o in t.meta && t.meta == s.meta[o := t.meta[o]]
      && t.meta[o].trackers == m.trackers - {p} && t.meta[o].ctr == Counter(seen.count - 1, flagging, seen.post)
      && t.meta[o].num == m.num && t.meta[o].size == m.size && t.meta[o].unlinks == m.unlinks && t.meta[o].invalid == m.invalid
  {}

  lemma DetachFinishes(s: State, u: State, p: Proc, o: Obj)
    requires p in u.procs && Inv(u) && TypeOk(u) && InDetach(s, u, p, o) && u.procs[p].pc.Finishing?
    ensures InDetach(s, Step(u, p, Lock), p, o)
  {
    hide Names, Counts, Places, Tables, Held, LedgerOk, LockOk, ListOk, TypeOk, Removal, Without, Fresh, JustLeft, FinishStep;
    GetProc(u, p);
    PcTyped(u, p);
    FinishGives(u, p, o, u.procs[p].pc.f);
  }

  lemma FinishGives(s: State, p: Proc, o: Obj, f: FinishStage)
    requires p in s.procs && o in s.meta && (f == Unlink ==> NamedAs(s.names, s.meta[o].num, o))
    ensures
      var t, m, table := FinishStep(s, p, o, f), s.meta[o], s.procs[p].table;
      && (f == Unlink ==> t == s.(names := s.names - {m.num}, meta := s.meta[o := m.(unlinks := m.unlinks + 1)], procs := s.procs[p := Process(Finishing(o, Post), table)]))
      && (f == Post ==> t == s.(meta := s.meta[o := m.(ctr := m.ctr.(post := true))], procs := s.procs[p := Process(Finishing(o, Refund), table)]))
      && (f == Refund ==> t == s.(total := s.total - m.size, live := s.live - {o}, procs := s.procs[p := Process(Idle, table)]))
  {}

  lemma DetachRemoves(s: State, u: State, p: Proc, o: Obj)
    requires p in u.procs && Inv(u) && TypeOk(u) && InDetach(s, u, p, o) && Base(u.procs[p].pc).Removing? && CanLock(u, p)
    ensures InDetach(s, Step(u, p, Lock), p, o)
  {
    hide Inv, TypeOk, Step, Without, Detached, LastOut, Before;
    var r := FromDetach(s.meta[o].ctr);
    RemovalKeeps(s, u, p, o, r);
    var t := Step(u, p, Lock);
    if Base(t.procs[p].pc).Removing? {
      assert Removal(s, t, p, o, r, Base(t.procs[p].pc).m);
    } else {
      assert Removed(s, t, p, o, r);
    }
  }

  lemma DetachKeeps(s: State, u: State, p: Proc, o: Obj)
    requires p in u.procs && Inv(u) && TypeOk(u) && InDetach(s, u, p, o) && u.procs[p].pc != Idle && CanLock(u, p)
    ensures InDetach(s, Step(u, p, Lock), p, o)
  {
    hide Inv, TypeOk, Step, InDetach;
    DetachWhere(s, u, p, o);
    if u.procs[p].pc.Detaching? {
      DetachReads(s, u, p, o);
    } else if u.procs[p].pc.Swapping? {
      DetachSwaps(s, u, p, o);
    } else if u.procs[p].pc.Finishing? {
      DetachFinishes(s, u, p, o);
    } else {
      DetachRemoves(s, u, p, o);
    }
  }

  lemma DetachWhere(s: State, u: State, p: Proc, o: Obj)
    requires InDetach(s, u, p, o) && u.procs[p].pc != Idle
    ensures var pc := u.procs[p].pc; pc.Detaching? || pc.Swapping? || pc.Finishing? || Base(pc).Removing?
    ensures !u.procs[p].pc.Adding?
  {
    hide Removal, LastOut, Detached;
  }

  // The last process out of a listed segment takes it out of the list.
  ghost predicate CutsOut(s: State, p: Proc, o: Obj) {
    o in s.fchain && o in s.meta && s.meta[o].trackers == {p}
  }

  // Nothing is opened but by a process that takes the segment out of the list.
  ghost predicate Few(s: State, u: State, p: Proc, o: Obj) {
    && p in s.procs && p in u.procs && (u.procs[p].table != s.procs[p].table ==> CutsOut(s, p, o))
    && (Base(u.procs[p].pc).Removing? && Base(u.procs[p].pc).m == RemFixNext ==> CutsOut(s, p, o))
  }

  lemma FewKeeps(s: State, u: State, p: Proc, o: Obj)
    requires p in u.procs && Inv(u) && TypeOk(u) && InDetach(s, u, p, o) && Few(s, u, p, o) && u.procs[p].pc != Idle && CanLock(u, p)
    ensures Few(s, Step(u, p, Lock), p, o)
  {
    hide Inv, TypeOk, InDetach, RemStep, DetachStep, SwapStep, FinishStep, CutsOut;
    DetachWhere(s, u, p, o);
    CutListed(s, u, p, o);
    var pc := u.procs[p].pc;
    if pc.Removing? {
      PcTyped(u, p);
      RemTable(u, p, pc.o, pc.m, pc.r);
      FewAfter(u, pc.o, pc.m, pc.r, RemStep(u, p, pc.o, pc.m, pc.r).procs[p].pc);
    } else if Base(pc).Removing? {
      BaseOpens(pc);
      OpenParts(u, p);
      BaseCut(pc.w);
    } else {
      FewEnds(s, u, p, o);
    }
  }

  lemma BaseCut(w: OpenCaller)
    ensures Resume(w).Removing? ==> Resume(w).m == RemFixPrev || Resume(w).m == RemFixNext
  {}

  lemma FewAfter(s: State, o: Obj, m: RemStage, r: RemoveCaller, pc: Pc)
    requires o in s.meta && RemLeads(s, o, m, r, pc)
    ensures Base(pc).Removing? && Base(pc).m == RemFixNext ==> m == RemFixPrev || m == RemFixNext
  {}

  // The segment is listed when its neighbours are looked up.
  lemma CutListed(s: State, u: State, p: Proc, o: Obj)
    requires p in u.procs && Inv(u) && InDetach(s, u, p, o)
    ensures Base(u.procs[p].pc).Removing? && Base(u.procs[p].pc).m == RemFixPrev ==> CutsOut(s, p, o)
  {
    hide Names, Counts, Places, Tables, Held, LedgerOk, LockOk, ListOk;
    GetProc(u, p);
  }

  lemma FewEnds(s: State, u: State, p: Proc, o: Obj)
    requires p in u.procs && Inv(u) && TypeOk(u) && InDetach(s, u, p, o) && Few(s, u, p, o)
    requires u.procs[p].pc.Detaching? || u.procs[p].pc.Swapping? || u.procs[p].pc.Finishing?
    ensures Few(s, Step(u, p, Lock), p, o)
  {
    hide Inv, TypeOk, CutsOut, Step, InDetach;
    PcTyped(u, p);
    OtherTable(u, p, Lock);
    EndsThere(u, p);
  }

  lemma EndsThere(s: State, p: Proc)
    requires Inv(s) && TypeOk(s) && p in s.procs && (s.procs[p].pc.Detaching? || s.procs[p].pc.Swapping? || s.procs[p].pc.Finishing?)
    ensures p in Step(s, p, Lock).procs
    ensures var b := Base(Step(s, p, Lock).procs[p].pc); b.Removing? ==> b.m == RemPeek
  {
    hide Inv, TypeOk, SwapStep, FinishStep, DetachStep;
    PcTyped(s, p);
    match s.procs[p].pc
    case Detaching(o) => DetachEnds(s, p, o);
    case Swapping(o, seen, flagging) => SwapEnds(s, p, o, seen, flagging);
    case Finishing(o, f) => FinishThere(s, p, o, f);
  }

  lemma FinishThere(s: State, p: Proc, o: Obj, f: FinishStage)
    requires p in s.procs && o in s.meta
    ensures var t := FinishStep(s, p, o, f); p in t.procs && !Base(t.procs[p].pc).Removing?
  {}

  // A detach run alone leaves the segment; the last process out also takes it out of the
  // list, flags, unlinks and posts it, and gives its size back.  The lock is as before.
  lemma DetachAlone(s: State, p: Proc, n: int) returns (k: nat, t: State)
    requires Reachable(s) && p in s.procs && s.procs[p].pc == Idle && CanLock(s, p) && n in s.procs[p].table
    ensures TypeOk(s) && t == Run(s, Chosen(p, SegmentModel.Detach(n), k)) && Works(Step(s, p, SegmentModel.Detach(n)), t, p, k)
    ensures p in t.procs && t.procs[p].pc == Idle && t.owner == s.owner && t.level == s.level && n !in t.procs[p].table
    ensures var o := s.procs[p].table[n]; Detached(s, t, p, o) && (t.procs[p].table == s.procs[p].table - {n} || CutsOut(s, p, o))
  {
    hide Reachable, Inv, TypeOk, Accounted, Works, Numbered, Step, LocksOk, Run, InDetach, Detached;
    ReachableSafe(s);
    var own := OwnThere(s);
    var o, c := s.procs[p].table[n], SegmentModel.Detach(n);
    var u := Step(s, p, c);
    DetachStarts(s, p, n);
    StepKeeps(s, p, c);
    InvTypes(u);
    LocksKeep(s, p, c, own);
    SameOwners(s, own);
    assert own[p := own[p]] == own;
    var keeps := (v: State) => InDetach(u, v, p, o) && Few(u, v, p, o) && LocksOk(v, own);
    forall v | keeps(v) && Running(v, p, 0) && v.procs[p].pc != Idle ensures keeps(Step(v, p, Lock)) {
      DetachKeeps(u, v, p, o);
      FewKeeps(u, v, p, o);
      DetachWhere(u, v, p, o);
      OwnStays(v, p, own);
    }
    k, t := GetsDone(u, p, 0, keeps);
    ChosenRun(s, t, p, c, k);
    LockKnown(s);
    LockKnown(t);
    LockBack(s, t, p, own);
    DetachedThere(u, t, p, o);
    DetachedSame(s, u, t, p, o);
    DetachedNumber(s, t, p, n);
    NotTracked(t, p, o, n);
  }

  lemma DetachedNumber(s: State, t: State, p: Proc, n: int)
    requires Inv(s) && p in s.procs && n in s.procs[p].table && Detached(s, t, p, s.procs[p].table[n])
    ensures
      var o := s.procs[p].table[n];
      o in t.meta && t.meta[o].num == n && p !in t.meta[o].trackers && (n in t.names ==> t.names[n] == o)
  {
    hide Names, Counts, Places, Procs, Tables, Held, LedgerOk, LockOk, ListOk, Without;
    GetEntry(s, p, n);
    EntryCurrent(s, p, n);
  }

  lemma DetachStarts(s: State, p: Proc, n: int)
    requires TypeOk(s) && p in s.procs && s.procs[p].pc == Idle && n in s.procs[p].table && CanLock(s, p)
    ensures
      var u := Step(s, p, SegmentModel.Detach(n));
      && s.procs[p].table[n] in s.meta && p in u.procs && u.procs[p].pc == Detaching(s.procs[p].table[n])
      && InDetach(u, u, p, s.procs[p].table[n]) && CanLock(u, p) && Numbered(u, p, 0) && u == s.(procs := u.procs)
      && u.procs[p].table == s.procs[p].table - {n}
  {
    NextTyped(s, p, n);
  }

  lemma DetachedThere(s: State, t: State, p: Proc, o: Obj)
    requires InDetach(s, t, p, o) && t.procs[p].pc == Idle
    ensures Detached(s, t, p, o)
  {
    hide Detached;
  }

  lemma DetachedSame(s: State, u: State, t: State, p: Proc, o: Obj)
    requires u == s.(procs := u.procs) && Detached(u, t, p, o)
    ensures Detached(s, t, p, o)
  {}

  // Whoever is not counted in a segment does not track it, and tracks none under its
  // number while that names it or nothing.
  lemma NotTracked(s: State, p: Proc, o: Obj, n: int)
    requires Inv(s) && p in s.procs && o in s.meta && s.meta[o].num == n && p !in s.meta[o].trackers
    requires n in s.names ==> s.names[n] == o
    ensures n !in s.procs[p].table
  {
    hide Counts, Places, Procs, Tables, Held, LedgerOk, LockOk, ListOk;
    if n in s.procs[p].table {
      EntryCurrent(s, p, n);
      GetEntry(s, p, n);
    }
  }

  // ----- an append that is refused -----

  // The append of a new segment has been refused in state `b`: the segment is no longer
  // tracked, and its process is about to detach it.
  ghost predicate Refused(s: State, b: State, p: Proc, o: Obj, size: nat) {
    && Underway(s, b, o, size) && b.fchain == s.fchain && o !in s.fchain
    && p in b.procs && b.procs[p].pc == Detaching(o) && b.meta[o].trackers == {p}
  }

  // Still before the refusal, or after it; `own` are the locks before.
  ghost predicate Growing(s: State, u: State, p: Proc, size: nat) {
    Creating(s, u, p, size) && u.procs[p].pc != Idle && (Base(u.procs[p].pc).Adding? ==> Base(u.procs[p].pc).a == AddLock || Base(u.procs[p].pc).a == AddCheck)
  }

  ghost predicate Shrinking(s: State, u: State, p: Proc, size: nat) {
    exists b, o :: Refused(s, b, p, o, size) && InDetach(b, u, p, o)
  }

  ghost predicate Refusing(s: State, u: State, p: Proc, size: nat, own: map<Proc, nat>) {
    || (Growing(s, u, p, size) && LocksOk(u, own))
    || (Shrinking(s, u, p, size) && p in own && LocksOk(u, own[p := own[p] + 1]))
  }

  lemma RefusalSteps(s: State, u: State, p: Proc, size: nat)
    requires p in u.procs && Inv(u) && TypeOk(u) && CanLock(u, p) && Growing(s, u, p, size)
    requires s.total + size <= s.maxSize && s.numShared >= s.maxSegs && Inv(s)
    ensures
      if u.procs[p].pc.Adding? && u.procs[p].pc.a == AddCheck then u.numShared >= u.maxSegs && Shrinking(s, Step(u, p, Lock), p, size)
      else Growing(s, Step(u, p, Lock), p, size)
  {
    hide Inv, TypeOk, Step, Creating, Created, Refused, InDetach;
    var t := Step(u, p, Lock);
    CreatingWhere(s, u, p, size);
    if u.procs[p].pc.Adding? && u.procs[p].pc.a == AddCheck {
      RefusedNow(s, u, p, size);
      assert Refused(s, t, p, u.procs[p].pc.o, size) && InDetach(t, t, p, u.procs[p].pc.o);
    } else {
      NotOpened(s, u, p, size);
      CreatingKeeps(s, u, p, size);
      StillEarly(s, u, p, size);
    }
  }

  lemma NotOpened(s: State, u: State, p: Proc, size: nat)
    requires Creating(s, u, p, size) && u.procs[p].pc != Idle
    requires Base(u.procs[p].pc).Adding? ==> Base(u.procs[p].pc).a == AddLock || Base(u.procs[p].pc).a == AddCheck
    ensures !u.procs[p].pc.Resolving? && !u.procs[p].pc.Opening?
  {
    hide Created;
  }

  lemma StillEarly(s: State, u: State, p: Proc, size: nat)
    requires p in u.procs && TypeOk(u) && CanLock(u, p) && Creating(s, u, p, size) && u.procs[p].pc != Idle && s.total + size <= s.maxSize
    requires !u.procs[p].pc.Resolving? && !u.procs[p].pc.Opening?
    requires u.procs[p].pc.Adding? ==> u.procs[p].pc.a == AddLock
    ensures
      var t := Step(u, p, Lock);
      p in t.procs && t.procs[p].pc != Idle && (Base(t.procs[p].pc).Adding? ==> Base(t.procs[p].pc).a == AddLock || Base(t.procs[p].pc).a == AddCheck)
  {
    hide TypeOk, Creating, ReserveStep, ChooseStep, BuildStep, AddStep;
    CreatingWhere(s, u, p, size);
    if u.procs[p].pc.Reserving? {
      CreatingRoom(s, u, p, size);
    }
    PcTyped(u, p);
    match u.procs[p].pc
    case Reserving(k, z) => ReserveEnds(u, p, k, z);
    case Choosing(o, k, z) => ChooseEnds(u, p, o, k, z);
    case Building(o, b) => BuildTable(u, p, o, b);
    case Adding(o, a) => AddLockGoes(u, p, o);
  }

  lemma CreatingRoom(s: State, u: State, p: Proc, size: nat)
    requires Creating(s, u, p, size) && s.total + size <= s.maxSize && u.procs[p].pc.Reserving?
    ensures u.total + u.procs[p].pc.size <= u.maxSize
  {
    hide Created;
  }

  lemma RefusedNow(s: State, u: State, p: Proc, size: nat)
    requires Inv(u) && TypeOk(u) && Creating(s, u, p, size) && u.procs[p].pc.Adding? && u.procs[p].pc.a == AddCheck
    requires s.numShared >= s.maxSegs && Inv(s)
    ensures var t, o := Step(u, p, Lock), u.procs[p].pc.o; Refused(s, t, p, o, size) && InDetach(t, t, p, o)
  {
    hide Names, Counts, Places, Tables, Held, LedgerOk, LockOk, ListOk, TypeOk, Created;
    GetProc(u, p);
    PcTyped(u, p);
    RefuseIs(u, p, u.procs[p].pc.o);
    UntrackIs(u, p, u.meta[u.procs[p].pc.o].num, Detaching(u.procs[p].pc.o));
  }

  lemma UntrackIs(u: State, p: Proc, n: int, pc: Pc)
    requires p in u.procs
    ensures Untrack(u, p, n, pc) == u.(procs := u.procs[p := Process(pc, u.procs[p].table - {n})])
  {}

  lemma RefuseIs(s: State, p: Proc, o: Obj)
    requires TypeOk(s) && p in s.procs && s.procs[p].pc == Adding(o, AddCheck) && o in s.meta && s.numShared >= s.maxSegs
    ensures Step(s, p, Lock) == Untrack(s, p, s.meta[o].num, Detaching(o))
  {
    hide TypeOk, Untrack;
  }

  lemma ShrinkingKeeps(s: State, u: State, p: Proc, size: nat)
    requires p in u.procs && Inv(u) && TypeOk(u) && CanLock(u, p) && Shrinking(s, u, p, size) && u.procs[p].pc != Idle
    ensures Shrinking(s, Step(u, p, Lock), p, size) && !u.procs[p].pc.Adding?
  {
    hide Inv, TypeOk, Step, Refused, InDetach;
    var b, o :| Refused(s, b, p, o, size) && InDetach(b, u, p, o);
    DetachKeeps(b, u, p, o);
    DetachWhere(b, u, p, o);
  }

  lemma RefusingKeeps(s: State, u: State, p: Proc, size: nat, own: map<Proc, nat>)
    requires p in u.procs && Inv(u) && TypeOk(u) && CanLock(u, p) && Refusing(s, u, p, size, own) && u.procs[p].pc != Idle
    requires s.total + size <= s.maxSize && s.numShared >= s.maxSegs && Inv(s)
    ensures Refusing(s, Step(u, p, Lock), p, size, own)
  {
    hide Inv, TypeOk, Step, Growing, Shrinking, LocksOk;
    if Shrinking(s, u, p, size) && p in own && LocksOk(u, own[p := own[p] + 1]) {
      ShrinkingKeeps(s, u, p, size);
      OwnStays(u, p, own[p := own[p] + 1]);
    } else {
      RefusalSteps(s, u, p, size);
      if u.procs[p].pc.Adding? && u.procs[p].pc.a == AddCheck {
        LocksKeep(u, p, Lock, own);
      } else {
        OwnStays(u, p, own);
      }
    }
  }

  // With as many segments shared as there may be, the new segment is given up again:
  // nothing is named, listed, reserved or tracked that was not before.  The lock taken for
  // the append stays with the process, which gives it back when it has reported the error.
  lemma RefusedAlone(s: State, p: Proc, size: nat, free: int) returns (n: nat, t: State)
    requires Reachable(s) && p in s.procs && s.procs[p].pc == Idle && CanLock(s, p)
    requires s.total + size <= s.maxSize && s.numShared >= s.maxSegs && 0 <= free <= SEG_MAX && free !in s.names
    ensures t == Run(s, Chosen(p, Create(size), n))
    ensures p in t.procs && t.procs[p].pc == Idle && t.names == s.names && t.fchain == s.fchain && t.total == s.total
    ensures t.owner == Some(p) && t.level == s.level + 1
  {
    hide Reachable, Inv, TypeOk, Accounted, Works, Numbered, Step, Creating, LocksOk, Run, Shrinking;
    ReachableSafe(s);
    var own := OwnThere(s);
    var u := Step(s, p, Create(size));
    CreateStarts(s, p, size, free);
    StepKeeps(s, p, Create(size));
    InvTypes(u);
    LocksKeep(s, p, Create(size), own);
    SameOwners(s, own);
    assert own[p := own[p]] == own;
    var keeps := (v: State) => Refusing(s, v, p, size, own);
    forall v | keeps(v) && Running(v, p, free) && v.procs[p].pc != Idle ensures keeps(Step(v, p, Lock)) {
      RefusingKeeps(s, v, p, size, own);
    }
    n, t := GetsDone(u, p, free, keeps);
    ChosenRun(s, t, p, Create(size), n);
    LockKnown(s);
    LockKnown(t);
    LockMore(s, t, p, own);
    ShrunkBack(s, t, p, size);
  }

  lemma LockMore(s: State, t: State, p: Proc, own: map<Proc, nat>)
    requires LocksOk(s, own) && p in own && LocksOk(t, own[p := own[p] + 1]) && LockOk(s) && LockOk(t) && CanLock(s, p) && CanLock(t, p)
    requires p in s.procs && p in t.procs && s.procs[p].pc == Idle && t.procs[p].pc == Idle
    ensures t.owner == Some(p) && t.level == s.level + 1
  {}

  lemma ShrunkBack(s: State, t: State, p: Proc, size: nat)
    requires Shrinking(s, t, p, size) && p in t.procs && t.procs[p].pc == Idle
    ensures t.names == s.names && t.fchain == s.fchain && t.total == s.total
  {
    hide Refused;
    var b, o :| Refused(s, b, p, o, size) && InDetach(b, t, p, o);
    RefusedParts(s, b, p, o, size);
    WithoutNone(s.fchain, o);
    assert s.names[b.meta[o].num := o] - {b.meta[o].num} == s.names;
  }

  lemma RefusedParts(s: State, b: State, p: Proc, o: Obj, size: nat)
    requires Refused(s, b, p, o, size)
    ensures o in b.meta && b.meta[o].size == size && b.total == s.total + size && b.fchain == s.fchain && o !in s.fchain
    ensures b.meta[o].num !in s.names && b.names == s.names[b.meta[o].num := o] && b.meta[o].trackers == {p}
  {}
}
