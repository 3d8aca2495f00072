/** The directives themselves, step by step. */
module DirectiveActs {
  import opened SegmentModel
  import opened SegmentInvariant
  import opened SegmentFrames
  import opened SegmentLists
  import opened SegmentSafety
  import opened DirectiveModel
  import opened DirectiveFrames
  import opened DirectiveInvariant
  import opened DirectiveSteps
  import opened DirectiveSafety

  // ----- a protocol operation under way -----

  // Opening a segment leaves the list and the lock alone.
  lemma OpenStays(s: State, p: Proc)
    requires TypeOk(s) && p in s.procs && (s.procs[p].pc.Resolving? || s.procs[p].pc.Opening?)
    ensures var t := Step(s, p, Lock); t.owner == s.owner && t.fchain == s.fchain && t.last == s.last
  {
    hide Goto, Write, TypeOk, Track;
    PcTyped(s, p);
    match s.procs[p].pc
    case Resolving(n, _) => GoStays(s, p, Fault); if n in s.names { GoStays(s, p, Opening(s.names[n], OpenCount, s.procs[p].pc.w)); }
    case Opening(q, e, v) =>
      WriteStays(s, p, q, Entered(s.meta[q], p), Opening(q, OpenCheck, v));
      GoStays(s, p, Opening(q, if s.meta[q].ctr.flag then OpenWait else OpenTrack, v));
      GoStays(s, p, Resolving(s.meta[q].num, v));
      TrackStays(s, p, s.meta[q].num, q, Resume(v));
  }

  lemma GoStays(s: State, p: Proc, pc: Pc)
    requires p in s.procs
    ensures var t := Goto(s, p, pc); t.owner == s.owner && t.fchain == s.fchain && t.last == s.last && t.meta == s.meta && t.rev == s.rev
  {}

  lemma WriteStays(s: State, p: Proc, q: Obj, m: Meta, pc: Pc)
    requires p in s.procs
    ensures p in Write(s, q, m).procs
    ensures var t := Goto(Write(s, q, m), p, pc); t.owner == s.owner && t.fchain == s.fchain && t.last == s.last
  {}

  lemma TrackStays(s: State, p: Proc, n: int, q: Obj, pc: Pc)
    requires p in s.procs
    ensures var t := Track(s, p, n, q, pc); t.owner == s.owner && t.fchain == s.fchain && t.last == s.last
  {}

  lemma TailGrows(order: seq<Obj>, c: seq<Obj>, i: nat)
    requires i < |c| && Tail(order, c[..i])
    ensures Tail(order + [c[i]], c[..i + 1])
  {}

  lemma BusyFetch(w: Wide, p: Proc, i: nat)
    requires Inv(w.core) && TypeOk(w.core) && p in w.locals && p in w.core.procs && Abreast(w, p)
    requires w.locals[p].act == Fetching(i) && w.core.procs[p].pc != Idle
    ensures
      var t := Follow(w, p, Lock, Fetching(i));
      p in t.core.procs && ActOk(t.core, p, t.locals[p], t.core.procs[p], w.bumps) && !Bumps(w.core.procs[p].pc)
  {
    hide Inv, TypeOk, Claim, OrderOk, TipOk, Step, Tail, Moved;
    var s, l := w.core, w.locals[p];
    var pc := s.procs[p].pc;
    OpenStays(s, p);
    FollowedBy(w, p, Lock, Fetching(i));
    MovedParts(s, Step(s, p, Lock), p);
    ListedHere(s, s.fchain[i]);
    if pc.Resolving? {
      Resolves(s, p);
    }
    OtherTable(s, p, Lock);
    if pc.Opening? && pc.e == OpenTrack {
      TailGrows(l.order, s.fchain, i);
    }
  }

  lemma ListedHere(s: State, o: Obj)
    requires Inv(s) && o in s.fchain
    ensures o in s.meta && NamedAs(s.names, s.meta[o].num, o) && 0 <= s.meta[o].num
  {
    hide Inv;
    ListedNamed(s, o);
  }

  lemma BusyLast(w: Wide, p: Proc)
    requires Inv(w.core) && TypeOk(w.core) && p in w.locals && p in w.core.procs && Abreast(w, p)
    requires w.locals[p].act == Opened && w.core.procs[p].pc != Idle
    ensures
      var t := Follow(w, p, Lock, Opened);
      p in t.core.procs && ActOk(t.core, p, t.locals[p], t.core.procs[p], w.bumps) && !Bumps(w.core.procs[p].pc)
  {
    hide Inv, TypeOk, Claim, OrderOk, TipOk, Step, Moved;
    var s, l := w.core, w.locals[p];
    var pc := s.procs[p].pc;
    OpenStays(s, p);
    FollowedBy(w, p, Lock, Opened);
    MovedParts(s, Step(s, p, Lock), p);
    if pc.Resolving? {
      Resolves(s, p);
      NameNumbers(s, pc.n);
    }
    OtherTable(s, p, Lock);
  }

  lemma NameNumbers(s: State, n: int)
    requires Inv(s) && n in s.names
    ensures s.names[n] in s.meta && s.meta[s.names[n]].num == n
  {
    hide Counts, Places, Tables, Held, LedgerOk, ListOk, Procs;
    assert NameOk(s, n);
  }

  lemma BusyDiscard(w: Wide, p: Proc, n: int)
    requires Inv(w.core) && TypeOk(w.core) && p in w.locals && p in w.core.procs && Abreast(w, p)
    requires w.locals[p].act == Discarding(n) && w.core.procs[p].pc != Idle
    ensures
      var t := Follow(w, p, Lock, Discarding(n));
      var bumps := if Bumps(w.core.procs[p].pc) then w.bumps + 1 else w.bumps;
      p in t.core.procs && ActOk(t.core, p, t.locals[p], t.core.procs[p], bumps)
  {
    hide Inv, TypeOk, Claim, OrderOk, TipOk, Step, Moved, RemStep;
    var s := w.core;
    var pc := s.procs[p].pc;
    var o := s.procs[p].table[n];
    FollowedBy(w, p, Lock, Discarding(n));
    if pc.Removing? {
      PcTyped(s, p);
      RemTable(s, p, o, pc.m, pc.r);
      StepIsRem(s, p, o, pc.m, pc.r);
      RemCalm(s, o, pc.m, pc.r, RemStep(s, p, o, pc.m, pc.r).procs[p].pc);
      RemovedInvalid(s, p, o, pc.m);
    } else {
      if pc.Resolving? {
        Resolves(s, p);
      } else {
        OpensNew(s, p);
      }
      OtherTable(s, p, Lock);
    }
  }

  // What is being opened is not tracked yet.
  lemma OpensNew(s: State, p: Proc)
    requires Inv(s) && p in s.procs && s.procs[p].pc.Opening?
    ensures s.procs[p].pc.q in s.meta && s.meta[s.procs[p].pc.q].num !in s.procs[p].table
  {
    hide Names, Counts, Places, Tables, Held, LedgerOk, ListOk;
    GetProc(s, p);
  }

  lemma StepIsRem(s: State, p: Proc, o: Obj, m: RemStage, r: RemoveCaller)
    requires TypeOk(s) && p in s.procs && s.procs[p].pc == Removing(o, m, r) && o in s.meta
    ensures Step(s, p, Lock) == RemStep(s, p, o, m, r)
  {
    hide RemStep, TypeOk;
  }

  // A removal ends with the segment invalid.
  lemma RemovedInvalid(s: State, p: Proc, o: Obj, m: RemStage)
    requires Inv(s) && TypeOk(s) && p in s.procs && s.procs[p].pc == Removing(o, m, Explicit) && o in s.meta
    ensures m == RemUnlock || (m == RemPeek && s.meta[o].invalid) ==>
      o in RemStep(s, p, o, m, Explicit).meta && RemStep(s, p, o, m, Explicit).meta[o].invalid
  {
    hide Names, Counts, Places, Tables, Held, LedgerOk, ListOk, TypeOk, Goto;
    GetProc(s, p);
    GoStays(s, p, Idle);
    if m == RemUnlock {
      HeldApart(s, p);
      GoStays(Release(s, p), p, Idle);
    }
  }

  lemma BuildsFresh(w: Wide, p: Proc)
    requires Inv(w.core) && TypeOk(w.core) && p in w.locals && p in w.core.procs && Abreast(w, p) && w.core.procs[p].pc != Idle
    ensures
      var t := Step(w.core, p, Lock);
      p in t.procs && (t.procs[p].pc.Building? ==> t.procs[p].pc.o in t.meta && t.meta[t.procs[p].pc.o].num !in t.procs[p].table)
      && (ForWalks(t.procs[p].pc) ==> w.locals[p].at < w.bumps)
  {
    hide Inv, TypeOk, Claim, OrderOk, TipOk, Step, Moved, ActOk, AddStep, RemStep;
    var s := w.core;
    var pc := s.procs[p].pc;
    FollowedBy(w, p, Lock, Quiet);
    MovedParts(s, Step(s, p, Lock), p);
    PcTyped(s, p);
    if pc.Removing? {
      RemTable(s, p, pc.o, pc.m, pc.r);
      StepIsRem(s, p, pc.o, pc.m, pc.r);
      RemCalm(s, pc.o, pc.m, pc.r, RemStep(s, p, pc.o, pc.m, pc.r).procs[p].pc);
    } else if pc.Adding? {
      AddTable(s, p, pc.o, pc.a);
      StepIsAdd(s, p, pc.o, pc.a);
      AddCalm(s, pc.o, pc.a, AddStep(s, p, pc.o, pc.a).procs[p].pc);
    } else {
      if pc.Resolving? {
        Resolves(s, p);
      }
      OtherTable(s, p, Lock);
      if pc.Choosing? && pc.k !in s.names {
        ChosenNumber(s, p, pc.o, pc.k, pc.size);
      }
    }
  }

  lemma StepIsAdd(s: State, p: Proc, o: Obj, a: AddStage)
    requires TypeOk(s) && p in s.procs && s.procs[p].pc == Adding(o, a) && o in s.meta
    ensures Step(s, p, Lock) == AddStep(s, p, o, a)
  {
    hide AddStep, TypeOk;
  }

  // A number that names nothing is in no table.
  lemma ChosenNumber(s: State, p: Proc, o: Obj, k: int, size: nat)
    requires Inv(s) && TypeOk(s) && p in s.procs && s.procs[p].pc == Choosing(o, k, size) && k !in s.names
    ensures k !in s.procs[p].table && o in Step(s, p, Lock).meta && Step(s, p, Lock).meta[o].num == k
  {
    hide Inv, TypeOk;
    if k in s.procs[p].table {
      EntryCurrent(s, p, k);
    }
  }

  lemma BusyKeeps(w: Wide, p: Proc)
    requires Inv(w.core) && TypeOk(w.core) && p in w.locals && p in w.core.procs && Abreast(w, p) && w.core.procs[p].pc != Idle
    ensures
      var t := Follow(w, p, Lock, w.locals[p].act);
      Followed(w, t, p) && Inv(t.core) && p in t.core.procs && Abreast(t, p)
  {
    hide Inv, TypeOk, Claim, OrderOk, TipOk, Step, Moved;
    var l := w.locals[p];
    FollowedBy(w, p, Lock, l.act);
    BuildsFresh(w, p);
    if !Bumps(w.core.procs[p].pc) {
      BusyClaim(w, p);
    }
    if l.act.Fetching? {
      BusyFetch(w, p, l.act.i);
    } else if l.act == Opened {
      BusyLast(w, p);
    } else if l.act.Discarding? {
      BusyDiscard(w, p, l.act.n);
    }
    FollowKeeps(w, p, Lock, l.act);
  }
}
