/** Every step of every process keeps the invariant. */
module SegmentSafety {
  import opened Counters
  import opened SegmentModel
  import opened SegmentInvariant
  import opened SegmentFrames
  import opened SegmentMoveSteps
  import opened SegmentTestSteps
  import opened SegmentBuildSteps
  import opened SegmentCountSteps
  import opened SegmentLeaveSteps
  import opened SegmentLinkSteps

  lemma NotFault(s: State, p: Proc)
    requires Inv(s) && p in s.procs
    ensures s.procs[p].pc != Fault
    ensures s.procs[p].pc.Opening? ==> s.procs[p].pc.e != OpenWait
  {
    hide Names, Counts, Places, Procs, Tables, Held, LedgerOk, ListOk;
    GetProc(s, p);
  }

  lemma IdleStepKeeps(s: State, p: Proc, c: Choice)
    requires Inv(s) && TypeOk(s) && p in s.procs && s.procs[p].pc == Idle
    ensures Inv(IdleStep(s, p, c))
  {
    hide Inv, TypeOk;
    if c.Detach? {
      if c.n in s.procs[p].table {
        UntrackKeeps(s, p, c.n);
      }
    } else {
      IdleKeeps(s, p, c);
    }
  }

  lemma CreateKeeps(s: State, p: Proc)
    requires Inv(s) && TypeOk(s) && p in s.procs
    requires s.procs[p].pc.Reserving? || s.procs[p].pc.Choosing?
    ensures Inv(Step(s, p, Lock))
  {
    hide Inv, TypeOk;
    match s.procs[p].pc
    case Reserving(k, size) =>
      if s.total + size > s.maxSize {
        ReserveFailKeeps(s, p, k, size);
      } else {
        ReserveKeeps(s, ReserveStep(s, p, k, size), p, k, size);
      }
    case Choosing(o, k, size) =>
      if k in s.names {
        ChooseNextKeeps(s, p, o, k, size);
      } else {
        ClaimKeeps(s, ChooseStep(s, p, o, k, size), p, o, k, size);
      }
  }

  lemma AddLinkKeeps(s: State, p: Proc, o: Obj)
    requires Inv(s) && TypeOk(s) && p in s.procs && s.procs[p].pc == Adding(o, AddLink) && o in s.meta
    ensures Inv(AddLinkStep(s, p, o))
  {
    hide Inv;
    if s.first == NO_SEG {
      LinkFirstKeeps(s, p, o);
    } else if s.last in s.procs[p].table {
      LinkLastKeeps(s, p, o, s.procs[p].table[s.last]);
    } else {
      AddLookKeeps(s, p, o);
    }
  }

  lemma AddStepKeeps(s: State, p: Proc, o: Obj, a: AddStage)
    requires Inv(s) && TypeOk(s) && p in s.procs && s.procs[p].pc == Adding(o, a) && o in s.meta
    ensures Inv(AddStep(s, p, o, a))
  {
    hide Inv, TypeOk;
    match a
    case AddLock => if CanLock(s, p) { AddLockKeeps(s, p, o); }
    case AddCheck => AddCheckKeeps(s, p, o);
    case AddLink => AddLinkKeeps(s, p, o);
    case AddPrev => AddPrevKeeps(s, p, o);
    case AddValid => AddValidKeeps(s, p, o);
    case AddLast => AddLastKeeps(s, p, o);
    case AddBump => AddBumpKeeps(s, p, o);
    case AddUnlock => AddUnlockKeeps(s, p, o);
  }

  lemma AddCheckKeeps(s: State, p: Proc, o: Obj)
    requires Inv(s) && TypeOk(s) && p in s.procs && s.procs[p].pc == Adding(o, AddCheck) && o in s.meta
    ensures Inv(AddStep(s, p, o, AddCheck))
  {
    hide Names, Counts, Places, Procs, Tables, Held, LedgerOk, ListOk, TypeOk;
    if s.numShared >= s.maxSegs {
      GetProc(s, p);
      UntrackKeeps(s, p, s.meta[o].num);
    } else {
      AddAdmitKeeps(s, p, o);
    }
  }

  lemma OpenStepKeeps(s: State, p: Proc, q: Obj, e: OpenStage, w: OpenCaller)
    requires Inv(s) && p in s.procs && s.procs[p].pc == Opening(q, e, w) && q in s.meta
    ensures Inv(OpenStep(s, p, q, e, w))
  {
    hide Inv;
    NotFault(s, p);
    match e
    case OpenCount => OpenCountKeeps(s, p, q, w);
    case OpenCheck => OpenCheckKeeps(s, p, q, w);
    case OpenTrack => OpenTrackKeeps(s, p, q, w);
    case OpenWait =>
  }

  lemma FixPrevStepKeeps(s: State, p: Proc, o: Obj, r: RemoveCaller)
    requires Inv(s) && TypeOk(s) && p in s.procs && s.procs[p].pc == Removing(o, RemFixPrev, r) && o in s.meta
    ensures Inv(FixPrevStep(s, p, o, r))
  {
    hide Inv;
    if s.meta[o].num == s.first {
      FixFirstKeeps(s, p, o, r);
    } else if s.meta[o].prev in s.procs[p].table {
      FixPrevKeeps(s, p, o, r, s.procs[p].table[s.meta[o].prev]);
    } else {
      PrevLookKeeps(s, p, o, r);
    }
  }

  lemma FixNextStepKeeps(s: State, p: Proc, o: Obj, r: RemoveCaller)
    requires Inv(s) && TypeOk(s) && p in s.procs && s.procs[p].pc == Removing(o, RemFixNext, r) && o in s.meta
    ensures Inv(FixNextStep(s, p, o, r))
  {
    hide Inv;
    if s.meta[o].num == s.last {
      FixLastKeeps(s, p, o, r);
    } else if s.meta[o].next in s.procs[p].table {
      FixNextKeeps(s, p, o, r, s.procs[p].table[s.meta[o].next]);
    } else {
      NextLookKeeps(s, p, o, r);
    }
  }

  lemma RemStepKeeps(s: State, p: Proc, o: Obj, m: RemStage, r: RemoveCaller)
    requires Inv(s) && TypeOk(s) && p in s.procs && s.procs[p].pc == Removing(o, m, r) && o in s.meta
    ensures Inv(RemStep(s, p, o, m, r))
  {
    hide Inv, TypeOk;
    match m
    case RemPeek => PeekKeeps(s, p, o, r);
    case RemLock => if CanLock(s, p) { RemLockKeeps(s, p, o, r); }
    case RemCheck => RemCheckKeeps(s, p, o, r);
    case RemMark => RemMarkKeeps(s, p, o, r);
    case RemFixPrev => FixPrevStepKeeps(s, p, o, r);
    case RemFixNext => FixNextStepKeeps(s, p, o, r);
    case RemReset => RemResetKeeps(s, p, o, r);
    case RemCount => UncountKeeps(s, p, o, r);
    case RemBump => RemBumpKeeps(s, p, o, r);
    case RemUnlock => RemUnlockKeeps(s, p, o, r);
  }

  lemma SwapStepKeeps(s: State, p: Proc, o: Obj, seen: Counter, flagging: bool)
    requires Inv(s) && p in s.procs && s.procs[p].pc == Swapping(o, seen, flagging) && o in s.meta
    ensures Inv(SwapStep(s, p, o, seen, flagging))
  {
    hide Inv;
    if s.meta[o].ctr != seen {
      SwapFailKeeps(s, p, o, seen, flagging);
    } else {
      SwapFacts(s, p, o, seen, flagging);
      if flagging {
        SwapFlagKeeps(s, p, o, seen);
      } else {
        SwapLeaveKeeps(s, p, o, seen);
      }
    }
  }

  lemma FinishStepKeeps(s: State, p: Proc, o: Obj, f: FinishStage)
    requires Inv(s) && p in s.procs && s.procs[p].pc == Finishing(o, f) && o in s.meta
    ensures Inv(FinishStep(s, p, o, f))
  {
    hide Inv;
    match f
    case Unlink => UnlinkKeeps(s, p, o);
    case Post => PostKeeps(s, p, o);
    case Refund => RefundKeeps(s, p, o);
  }

  lemma StepKeeps(s: State, p: Proc, c: Choice)
    requires Inv(s) && TypeOk(s) && p in s.procs
    ensures Inv(Step(s, p, c))
  {
    hide Inv, TypeOk, IdleStep, AddStep, RemStep, OpenStep, DetachStep, SwapStep, FinishStep, BuildStep, ResolveStep, ReserveStep, ChooseStep;
    NotFault(s, p);
    PcTyped(s, p);
    match s.procs[p].pc
    case Idle => IdleStepKeeps(s, p, c);
    case Reserving(k, size) => CreateKeeps(s, p);
    case Choosing(o, k, size) => CreateKeeps(s, p);
    case Building(o, b) => BuildKeeps(s, BuildStep(s, p, o, b), p, o, b);
    case Adding(o, a) => AddStepKeeps(s, p, o, a);
    case Resolving(n, w) => ResolveKeeps(s, p, n, w);
    case Opening(q, e, w) => OpenStepKeeps(s, p, q, e, w);
    case Removing(o, m, r) => RemStepKeeps(s, p, o, m, r);
    case Detaching(o) => DetachKeeps(s, p, o);
    case Swapping(o, seen, flagging) => SwapStepKeeps(s, p, o, seen, flagging);
    case Finishing(o, f) => FinishStepKeeps(s, p, o, f);
    case Fault =>
  }

  lemma PcTyped(s: State, p: Proc)
    requires TypeOk(s) && p in s.procs
    ensures forall o :: o in PcObjs(s.procs[p].pc) ==> o in s.meta
  {}
}
