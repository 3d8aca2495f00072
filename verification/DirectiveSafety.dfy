/** Every step of every directive keeps the lists of all processes in line. */
module DirectiveSafety {
  import opened Options
  import opened SegmentModel
  import opened SegmentInvariant
  import opened SegmentFrames
  import opened SegmentLists
  import opened SegmentSafety
  import opened SegmentAccounts
  import opened DirectiveModel
  import opened DirectiveFrames
  import opened DirectiveInvariant
  import opened DirectiveSteps

  // ----- putting a step together -----

  lemma FollowedBy(w: Wide, p: Proc, c: Choice, act: Act)
    requires Inv(w.core) && TypeOk(w.core) && p in w.locals && p in w.core.procs
    ensures Inv(Follow(w, p, c, act).core) && Followed(w, Follow(w, p, c, act), p)
    ensures Follow(w, p, c, act).core == Step(w.core, p, c)
  {
    hide Inv, TypeOk, Moved, Step, OrderAfter;
    StepKeeps(w.core, p, c);
    StepMoves(w.core, p, c);
  }

  // One protocol step: what is left to show about the process itself.
  lemma FollowKeeps(w: Wide, p: Proc, c: Choice, act: Act)
    requires Inv(w.core) && TypeOk(w.core) && p in w.locals && p in w.core.procs && Abreast(w, p)
    requires p in Step(w.core, p, c).procs
    requires
      var t := Follow(w, p, c, act);
      var l, x := t.locals[p], Step(w.core, p, c).procs[p];
      && (Bumps(w.core.procs[p].pc) || Claim(l, Base(x.pc), w.agreed, Now(w.core), w.bumps))
      && (x.pc.Building? ==> x.pc.o in t.core.meta && t.core.meta[x.pc.o].num !in x.table)
      && (ForWalks(x.pc) ==> l.at < w.bumps)
      && ActOk(t.core, p, l, x, t.bumps)
    ensures Followed(w, Follow(w, p, c, act), p) && Inv(Follow(w, p, c, act).core) && Abreast(Follow(w, p, c, act), p)
  {
    hide Inv, TypeOk, Moved, Step, OrderAfter, Claim, ActOk, OrderOk, TipOk, WindowMoves;
    var s, t, l := w.core, Follow(w, p, c, act), w.locals[p];
    FollowedBy(w, p, c, act);
    MovedParts(s, t.core, p);
    OwnOrder(s, p, c, l.order);
    var bump := Bumps(s.procs[p].pc);
    TipMoves(Now(s), Now(t.core), s.fchain, t.core.fchain, l.tip, w.agreed, w.bumps, bump);
    if bump {
      PastClaim(t.locals[p], Base(t.core.procs[p].pc), t.agreed, Now(t.core), t.bumps);
    } else {
      ClaimMoves(t.locals[p], Base(t.core.procs[p].pc), w.agreed, Now(s), Now(t.core), s.fchain, t.core.fchain, w.bumps, false);
    }
  }

  lemma PastClaim(l: Local, b: Pc, agreed: seq<Obj>, win: Window, bumps: nat)
    requires l.at < bumps
    ensures Claim(l, b, agreed, win, bumps)
  {}

  lemma FollowInv(w: Wide, t: Wide, p: Proc)
    requires WideInv(w) && Followed(w, t, p) && Inv(t.core) && Accounted(t.core) && TypeOk(t.core)
    requires p in t.core.procs && Abreast(t, p)
    ensures WideInv(t)
  {
    hide Inv, TypeOk, Accounted, Moved, Abreast, Shared;
    NoDupChains(t.core);
    SharedKeeps(w, t, p);
    MovedParts(w.core, t.core, p);
    forall q | q in t.locals && q in t.core.procs ensures Abreast(t, q) {
      if q != p {
        OtherKeeps(w, t, p, q);
      }
    }
  }

  // A step that changes nothing but the process's own list or directive.
  lemma LocalInv(w: Wide, p: Proc, l: Local)
    requires WideInv(w) && p in w.locals && p in w.core.procs && Abreast(w.(locals := w.locals[p := l]), p)
    ensures WideInv(w.(locals := w.locals[p := l]))
  {
    hide Inv, TypeOk, Accounted, OrderOk, Claim, TipOk, ActOk;
    var t := w.(locals := w.locals[p := l]);
    forall q | q in t.locals && q in t.core.procs ensures Abreast(t, q) {
      assert q != p ==> Abreast(w, q);
    }
  }

  // ----- a process in the middle of a protocol operation -----

  lemma ClaimCalm(l: Local, order: seq<Obj>, pc: Pc, pc': Pc, agreed: seq<Obj>, win: Window, bumps: nat)
    requires Claim(l, Base(pc), agreed, win, bumps) && Calm(pc, pc') && !Bumps(pc) && (ForWalks(pc) ==> l.at < bumps)
    requires order == l.order || ForWalks(pc) || Editing(Base(pc'))
    ensures Claim(l.(order := order), Base(pc'), agreed, win, bumps)
  {
    hide Like;
  }

  lemma ClaimBuilt(l: Local, o: Obj, agreed: seq<Obj>, win: Window, bumps: nat)
    requires Claim(l, Building(o, Unlisted), agreed, win, bumps)
    ensures Claim(l.(order := l.order + [o]), Adding(o, AddLock), agreed, win, bumps)
  {
    hide Like;
    if l.at == bumps && l.act != Leaving {
      var k := Pending(l.act);
      assert l.order[k..|l.order| - 0] == (l.order + [o])[k..|l.order + [o]| - 1];
    }
  }

  lemma ClaimRefused(l: Local, o: Obj, agreed: seq<Obj>, win: Window, bumps: nat)
    requires Claim(l, Adding(o, AddCheck), agreed, win, bumps) && NoDup(l.order)
    ensures Claim(l.(order := Without(l.order, o)), Detaching(o), agreed, win, bumps)
  {
    hide Like;
    if l.at == bumps && l.act != Leaving {
      var n := |l.order|;
      assert l.order[n - 1..][0] == o;
      WithoutAt(l.order, n - 1);
      assert Without(l.order, o) == l.order[..n - 1];
      assert l.order[..n - 1][Pending(l.act)..n - 1] == l.order[Pending(l.act)..n - 1];
    }
  }

  lemma BusyClaim(w: Wide, p: Proc)
    requires Inv(w.core) && TypeOk(w.core) && p in w.locals && p in w.core.procs && Abreast(w, p) && w.core.procs[p].pc != Idle
    requires !Bumps(w.core.procs[p].pc)
    ensures
      var s, l := w.core, w.locals[p];
      && p in Step(s, p, Lock).procs
      && Claim(l.(order := OrderAfter(s, p, Lock, l.order)), Base(Step(s, p, Lock).procs[p].pc), w.agreed, Now(s), w.bumps)
  {
    hide Inv, TypeOk, Claim, AddStep, RemStep, ActOk, OrderOk, TipOk;
    var s, l := w.core, w.locals[p];
    var pc := s.procs[p].pc;
    PcTyped(s, p);
    if pc.Adding? {
      AddTable(s, p, pc.o, pc.a);
      var pc' := AddStep(s, p, pc.o, pc.a).procs[p].pc;
      AddCalm(s, pc.o, pc.a, pc');
      if pc.a == AddCheck && s.numShared >= s.maxSegs {
        NoDupOrder(w, p);
        ClaimRefused(l, pc.o, w.agreed, Now(s), w.bumps);
      } else {
        ClaimCalm(l, l.order, pc, pc', w.agreed, Now(s), w.bumps);
      }
    } else if pc.Removing? {
      RemTable(s, p, pc.o, pc.m, pc.r);
      var pc' := RemStep(s, p, pc.o, pc.m, pc.r).procs[p].pc;
      RemCalm(s, pc.o, pc.m, pc.r, pc');
      ClaimCalm(l, l.order, pc, pc', w.agreed, Now(s), w.bumps);
    } else {
      BusyOther(w, p);
    }
  }

  lemma NoDupOrder(w: Wide, p: Proc)
    requires p in w.locals && p in w.core.procs && Abreast(w, p)
    ensures NoDup(w.locals[p].order)
  {
    hide Claim, ActOk, TipOk, NoDup;
  }

  // The name that a process resolves exists.
  lemma Resolves(s: State, p: Proc)
    requires Inv(s) && p in s.procs && s.procs[p].pc.Resolving?
    ensures s.procs[p].pc.n in s.names && s.names[s.procs[p].pc.n] in s.fchain && s.owner == Some(p)
  {
    hide Names, Counts, Places, Tables, Held, LedgerOk, ListOk;
    GetProc(s, p);
  }

  lemma BusyOther(w: Wide, p: Proc)
    requires Inv(w.core) && TypeOk(w.core) && p in w.locals && p in w.core.procs && Abreast(w, p)
    requires var pc := w.core.procs[p].pc; pc != Idle && !pc.Adding? && !pc.Removing?
    ensures
      var s, l := w.core, w.locals[p];
      && p in Step(s, p, Lock).procs
      && Claim(l.(order := OrderAfter(s, p, Lock, l.order)), Base(Step(s, p, Lock).procs[p].pc), w.agreed, Now(s), w.bumps)
  {
    hide Inv, TypeOk, Claim, Step, ActOk, OrderOk, TipOk;
    var s, l := w.core, w.locals[p];
    var pc := s.procs[p].pc;
    if pc.Resolving? {
      Resolves(s, p);
    }
    OtherTable(s, p, Lock);
    var pc' := Step(s, p, Lock).procs[p].pc;
    if pc.Building? {
      if pc.b == Unlisted {
        ClaimBuilt(l, pc.o, w.agreed, Now(s), w.bumps);
      } else {
        SameClaim(l, pc, pc', w.agreed, Now(s), w.bumps);
      }
    } else if pc.Choosing? && pc'.Building? {
      SameClaim(l, pc, pc', w.agreed, Now(s), w.bumps);
    } else {
      ClaimCalm(l, OrderAfter(s, p, Lock, l.order), pc, pc', w.agreed, Now(s), w.bumps);
    }
  }

  lemma SameClaim(l: Local, b: Pc, b': Pc, agreed: seq<Obj>, win: Window, bumps: nat)
    requires Claim(l, Base(b), agreed, win, bumps) && !Editing(Base(b)) && !Editing(Base(b')) && Extra(Base(b)) == Extra(Base(b'))
    ensures Claim(l, Base(b'), agreed, win, bumps)
  {}
}
