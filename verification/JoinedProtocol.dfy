/** The info block and the segments together: a process works on segments only while it
    is in the block, and leaves the block only after it has detached from everything.

    The block holds the ends and the length of the shared list, the total size and the
    revision; whoever initialises a block resets them. */
module JoinedProtocol {
  import opened Counters
  import opened Options
  import I = InfoProtocol
  import IS = InfoSafety
  import IT = InfoTheorems
  import S = SegmentModel
  import SI = SegmentInvariant
  import SA = SegmentAccounts
  import ST = SegmentTheorems
  import DF = DirectiveFrames

  datatype Both = Both(info: I.State, seg: S.State)

  datatype Move = Attach(way: I.Choice) | Share(deed: S.Choice)

  const DETACHED: S.Process := S.Process(S.Idle, map[])

  function Reset(s: S.State): S.State {
    s.(first := S.NO_SEG, last := S.NO_SEG, numShared := 0, rev := 0, total := 0)
  }

  ghost function Next(j: Both, p: nat, m: Move): Both {
    if p !in j.info.procs || p !in j.seg.procs then j
    else
      match m
      case Share(c) => if j.info.procs[p].In? then j.(seg := ST.Turn(j.seg, p, c)) else j
      case Attach(c) =>
        if j.info.procs[p].In? && j.seg.procs[p] != DETACHED then j
        else Both(IT.Turn(j.info, p, c), if j.info.procs[p].Resetting? then Reset(j.seg) else j.seg)
  }

  ghost function Run(j: Both, moves: seq<(nat, Move)>): Both {
    if moves == [] then j
    else
      var k := |moves| - 1;
      Next(Run(j, moves[..k]), moves[k].0, moves[k].1)
  }

  ghost predicate Init(j: Both) {
    I.Init(j.info) && SI.Init(j.seg) && j.seg.procs.Keys == j.info.procs.Keys
  }

  ghost predicate Reachable(j: Both) {
    exists j0, moves :: Init(j0) && j == Run(j0, moves)
  }

  // ----- the invariant -----

  ghost predicate Safe(s: S.State) {
    SI.Inv(s) && SA.Accounted(s) && S.TypeOk(s)
  }

  ghost predicate Inv(j: Both) {
    && I.Inv(j.info) && I.TypeOk(j.info) && Safe(j.seg)
    && j.seg.procs.Keys == j.info.procs.Keys
    && forall p :: p in j.seg.procs && p in j.info.procs && !j.info.procs[p].In? ==> j.seg.procs[p] == DETACHED
  }

  lemma SegmentStep(s: S.State, p: nat, c: S.Choice)
    requires Safe(s) && p in s.procs
    ensures
      var t := ST.Turn(s, p, c);
      Safe(t) && t.procs.Keys == s.procs.Keys && forall q :: q in s.procs && q != p ==> t.procs[q] == s.procs[q]
  {
    hide SI.Inv, SA.Accounted, S.TypeOk, DF.WindowMoves, S.Step;
    ST.TurnKeeps(s, p, c);
    DF.StepMoves(s, p, c);
  }

  lemma InfoStep(s: I.State, p: nat, c: I.Choice)
    requires I.Inv(s) && I.TypeOk(s) && p in s.procs
    ensures
      var t := IT.Turn(s, p, c);
      I.Inv(t) && I.TypeOk(t) && t.procs.Keys == s.procs.Keys && forall q :: q in s.procs && q != p ==> t.procs[q] == s.procs[q]
  {
    hide I.Inv;
    IS.StepKeeps(s, p, c);
    IS.Typed(I.Step(s, p, c));
    IT.OnlyMoves(s, p, c);
  }

  // While a block is being initialised, nobody is in.
  lemma NobodyIn(s: I.State, p: nat, q: nat)
    requires I.Inv(s) && p in s.procs && s.procs[p].Resetting? && q in s.procs
    ensures !s.procs[q].In?
  {
    hide I.Inv;
    IT.GetProc(s, p);
    if s.procs[q].In? {
      IT.GetProc(s, q);
    }
  }

  // With every process detached, nothing is named, listed or counted, so a reset
  // restarts the revision and changes nothing else.
  lemma NothingThere(s: S.State)
    requires Safe(s) && forall p :: p in s.procs ==> s.procs[p] == DETACHED
    ensures s.names == map[] && s.first == S.NO_SEG && s.last == S.NO_SEG && s.numShared == 0 && s.total == 0
    ensures Reset(s) == s.(rev := 0)
  {
    hide SI.Names, SI.Procs, SI.Tables, S.TypeOk, SI.Places, SI.Counts, SI.Held, SA.Accounted;
    forall o | o in s.meta ensures s.meta[o].trackers == {} && s.meta[o].ctr.flag {
      ST.NobodyIn(s, o);
    }
    ST.NothingOwed(s);
    ST.NamelessWhenDead(s);
    ST.EmptyLists(s);
  }

  lemma RevAlone(s: S.State)
    requires Safe(s)
    ensures Safe(s.(rev := 0))
  {
    hide SI.Names, SI.Procs, SI.Tables, S.TypeOk, SI.Places, SI.Counts, SI.Held, SI.LockOk, SI.LedgerOk, SI.ListOk, SA.Accounted;
    RevProcs(s);
    RevPlaces(s);
    RevRest(s);
    RevAccounts(s);
  }

  lemma RevProcs(s: S.State)
    requires SI.Procs(s)
    ensures SI.Procs(s.(rev := 0))
  {
    var t := s.(rev := 0);
    forall p | p in t.procs ensures SI.ProcOk(t, p, t.procs[p].pc, t.procs[p].table) {
      assert SI.ProcOk(s, p, s.procs[p].pc, s.procs[p].table);
    }
  }

  lemma RevPlaces(s: S.State)
    requires SI.Places(s)
    ensures SI.Places(s.(rev := 0))
  {
    forall o | o in s.meta ensures SI.Place(s.(rev := 0), o) {
      assert SI.Place(s, o);
    }
  }

  lemma RevRest(s: S.State)
    requires SI.LockOk(s) && SI.Names(s) && SI.Counts(s) && SI.Tables(s) && SI.Held(s) && SI.ListOk(s) && SI.LedgerOk(s) && S.TypeOk(s)
    ensures
      var t := s.(rev := 0);
      SI.LockOk(t) && SI.Names(t) && SI.Counts(t) && SI.Tables(t) && SI.Held(t) && SI.ListOk(t) && SI.LedgerOk(t) && S.TypeOk(t)
  {
    hide SI.CountOk, SI.HeldOk, SI.EntryOk, SI.Forward, SI.Backward, SI.NoDup, SI.ChainsAgree, SI.CutOk;
    var t := s.(rev := 0);
    forall n | n in t.names ensures SI.NameOk(t, n) {
      assert SI.NameOk(s, n);
    }
  }

  lemma RevAccounts(s: S.State)
    requires SA.Accounted(s)
    ensures SA.Accounted(s.(rev := 0))
  {
    var t := s.(rev := 0);
    forall o | o in t.live ensures SA.Owed(t, o) {
      assert SA.Owed(s, o);
    }
    forall o | o in t.meta ensures SA.InUse(t, o) {
      assert SA.InUse(s, o);
    }
  }

  lemma NextKeeps(j: Both, p: nat, m: Move)
    requires Inv(j)
    ensures Inv(Next(j, p, m))
  {
    hide I.Inv, I.TypeOk, Safe, IT.Turn, ST.Turn, Reset;
    if p in j.info.procs {
      match m
      case Share(c) => SegmentStep(j.seg, p, c);
      case Attach(c) =>
        InfoStep(j.info, p, c);
        if j.info.procs[p].Resetting? {
          forall q | q in j.seg.procs ensures j.seg.procs[q] == DETACHED {
            NobodyIn(j.info, p, q);
          }
          NothingThere(j.seg);
          RevAlone(j.seg);
        }
    }
  }

  lemma {:induction false} RunSafe(j0: Both, moves: seq<(nat, Move)>)
    requires Init(j0)
    ensures Inv(Run(j0, moves))
  {
    hide Next, Inv, Init;
    if moves == [] {
      InitInv(j0);
    } else {
      var k := |moves| - 1;
      RunSafe(j0, moves[..k]);
      NextKeeps(Run(j0, moves[..k]), moves[k].0, moves[k].1);
    }
  }

  lemma InitInv(j: Both)
    requires Init(j)
    ensures Inv(j)
  {
    SI.InitInv(j.seg);
    ST.InitAccounted(j.seg);
    ST.InvTypes(j.seg);
  }

  lemma ReachableSafe(j: Both)
    requires Reachable(j)
    ensures Inv(j)
  {
    hide Inv, Run, Init;
    var j0, moves :| Init(j0) && j == Run(j0, moves);
    RunSafe(j0, moves);
  }

  // ----- what holds in every reachable state -----

  // As long as any segment exists, some process is in the block, which carries the
  // name and is not flagged.
  lemma SegmentsNeedBlock(j: Both)
    requires Reachable(j) && j.seg.names != map[]
    ensures exists p :: p in j.info.procs && j.info.procs[p].In? && j.info.name == Some(j.info.procs[p].b)
                        && j.info.procs[p].b in j.info.infos && !j.info.infos[j.info.procs[p].b].ctr.flag
  {
    hide Reachable, I.Inv, I.TypeOk, Safe;
    ReachableSafe(j);
    if forall p :: p in j.seg.procs ==> j.seg.procs[p] == DETACHED {
      NothingThere(j.seg);
    } else {
      var p :| p in j.seg.procs && j.seg.procs[p] != DETACHED;
      assert p in j.info.procs && j.info.procs[p].In?;
      IT.GetProc(j.info, p);
      InNamed(j.info, p);
    }
  }

  lemma InNamed(s: I.State, p: nat)
    requires I.Inv(s) && p in s.procs && s.procs[p].In?
    ensures s.procs[p].b in s.infos && s.name == Some(s.procs[p].b) && !s.infos[s.procs[p].b].ctr.flag
  {
    hide I.Inv;
    IT.GetProc(s, p);
  }

  // The swap that flags the block for unlinking succeeds only when no segment is left:
  // no name, no list entry, no reserved byte.
  lemma FlaggedEmpty(j: Both, p: nat, b: I.Block, seen: Counter)
    requires Reachable(j) && p in j.info.procs && j.info.procs[p] == I.Leaving(b, seen)
    requires b in j.info.infos && j.info.infos[b].ctr == seen && Down(seen).count == 0
    ensures j.seg.names == map[] && j.seg.first == S.NO_SEG && j.seg.last == S.NO_SEG && j.seg.total == 0
  {
    hide Reachable, I.Inv, I.TypeOk, Safe;
    ReachableSafe(j);
    forall q | q in j.seg.procs ensures j.seg.procs[q] == DETACHED {
      LastAlone(j.info, p, b, seen, q);
    }
    NothingThere(j.seg);
  }

  lemma LastAlone(s: I.State, p: nat, b: I.Block, seen: Counter, q: nat)
    requires I.Inv(s) && p in s.procs && s.procs[p] == I.Leaving(b, seen) && b in s.infos && s.infos[b].ctr == seen && Down(seen).count == 0
    requires q in s.procs
    ensures !s.procs[q].In?
  {
    hide I.Inv;
    IT.GetProc(s, p);
    if s.procs[q].In? {
      IT.GetProc(s, q);
      FewProcs(s);
      assert {p, q} <= s.infos[b].members && |{p, q}| == 2;
      IS.SubsetSize({p, q}, s.infos[b].members);
      IS.SubsetSize(s.infos[b].members, s.procs.Keys);
    }
  }

  lemma FewProcs(s: I.State)
    requires I.Inv(s)
    ensures |s.procs.Keys| < COUNT_WRAP
  {}

  // Whoever initialises a block finds nothing that the reset could lose.
  lemma ResetLosesNothing(j: Both, p: nat)
    requires Reachable(j) && p in j.info.procs && j.info.procs[p].Resetting?
    ensures j.seg.names == map[] && Reset(j.seg) == j.seg.(rev := 0)
  {
    hide Reachable, I.Inv, I.TypeOk, Safe, Reset;
    ReachableSafe(j);
    forall q | q in j.seg.procs ensures j.seg.procs[q] == DETACHED {
      NobodyIn(j.info, p, q);
    }
    NothingThere(j.seg);
  }
}
