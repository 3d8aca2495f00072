/** The steps of a directive between its protocol operations. */
module DirectiveDeeds {
  import opened Options
  import opened SegmentModel
  import opened SegmentInvariant
  import opened SegmentLists
  import opened SegmentTheorems
  import opened DirectiveModel
  import opened DirectiveFrames
  import opened DirectiveInvariant
  import opened DirectiveSteps
  import opened DirectiveSafety
  import opened DirectiveActs

  // A process between protocol operations.
  ghost predicate Ready(w: Wide, p: Proc) {
    && Inv(w.core) && TypeOk(w.core) && Shared(w)
    && p in w.locals && p in w.core.procs && Abreast(w, p) && w.core.procs[p].pc == Idle
  }

  // What a step leads to.
  ghost predicate Kept(w: Wide, t: Wide, p: Proc) {
    || (p in w.core.procs && Followed(w, t, p) && Inv(t.core) && p in t.core.procs && Abreast(t, p) && (exists c :: t.core == Turn(w.core, p, c)))
    || (p in w.locals && p in t.locals && t == w.(locals := w.locals[p := t.locals[p]]) && p in t.core.procs && Abreast(t, p))
  }

  lemma IdleKeeps(w: Wide, p: Proc, c: Choice, act: Act)
    requires Ready(w, p) && p in IdleStep(w.core, p, c).procs
    requires
      var t := IdleStep(w.core, p, c);
      var l := w.locals[p].(order := OrderAfter(w.core, p, c, w.locals[p].order), act := act);
      && Claim(l, Idle, w.agreed, Now(w.core), w.bumps)
      && (ForWalks(t.procs[p].pc) ==> l.at < w.bumps)
      && ActOk(t, p, l, t.procs[p], w.bumps)
    ensures Kept(w, Follow(w, p, c, act), p)
  {
    hide Inv, TypeOk, Shared, Claim, OrderOk, TipOk, ActOk, IdleStep, Moved, OrderAfter, Followed;
    IdleTable(w.core, p, c);
    StepIsIdle(w.core, p, c);
    var t := IdleStep(w.core, p, c);
    var l := w.locals[p].(order := OrderAfter(w.core, p, c, w.locals[p].order), act := act);
    SameClaim(l, Idle, t.procs[p].pc, w.agreed, Now(w.core), w.bumps);
    FollowedBy(w, p, c, act);
    FollowKeeps(w, p, c, act);
  }

  lemma StepIsIdle(s: State, p: Proc, c: Choice)
    requires TypeOk(s) && p in s.procs && s.procs[p].pc == Idle
    ensures Step(s, p, c) == IdleStep(s, p, c)
  {
    hide IdleStep, TypeOk;
  }

  lemma LocalKept(w: Wide, p: Proc, l: Local)
    requires Ready(w, p) && l.at <= w.bumps && l.seen == RevAt(l.at)
    requires OrderOk(w.core.meta, w.core.procs[p].table, l.order)
    requires Claim(l, Idle, w.agreed, Now(w.core), w.bumps) && TipOk(l.tip, w.agreed, Now(w.core), w.bumps)
    requires ActOk(w.core, p, l, w.core.procs[p], w.bumps)
    ensures Kept(w, w.(locals := w.locals[p := l]), p)
  {
    hide Inv, TypeOk, Shared, Claim, OrderOk, TipOk, ActOk;
  }

  // What `Abreast` and `Shared` say of a process between operations.
  lemma ReadyParts(w: Wide, p: Proc)
    requires Ready(w, p)
    ensures
      var s, l := w.core, w.locals[p];
      && OrderOk(s.meta, s.procs[p].table, l.order) && NoDup(l.order) && l.at <= w.bumps && l.seen == RevAt(l.at)
      && Claim(l, Idle, w.agreed, Now(s), w.bumps) && TipOk(l.tip, w.agreed, Now(s), w.bumps)
      && ActOk(s, p, l, s.procs[p], w.bumps)
      && AgreedOk(s.fchain, w.agreed, Now(s)) && s.rev == RevAt(w.bumps) && (w.bumps == 0 ==> w.agreed == [])
      && (s.owner == Some(p) ==> Now(s) == Still)
  {
    hide Inv, TypeOk, Claim, TipOk, ActOk, AgreedOk;
  }

  // ----- the lock, and local moves -----

  lemma LockIdle(s: State, p: Proc)
    requires TypeOk(s) && p in s.procs && s.procs[p].pc == Idle
    ensures CanLock(s, p) ==> var t := IdleStep(s, p, Lock);
      t.owner == Some(p) && t.fchain == s.fchain && t.last == s.last && t.procs == s.procs && t.meta == s.meta
    ensures var t := IdleStep(s, p, Unlock); t.fchain == s.fchain && t.last == s.last && t.procs == s.procs && t.meta == s.meta
  {}

  lemma DetachIdle(s: State, p: Proc, n: int)
    requires TypeOk(s) && p in s.procs && s.procs[p].pc == Idle && n in s.procs[p].table
    ensures var t := IdleStep(s, p, Detach(n)); p in t.procs && t.procs[p].pc == Detaching(s.procs[p].table[n])
    ensures var t := IdleStep(s, p, RemoveShared(n));
      p in t.procs && t.procs[p] == s.procs[p].(pc := Removing(s.procs[p].table[n], RemPeek, Explicit))
  {}

  lemma OpenIdle(s: State, p: Proc, c: Choice)
    requires TypeOk(s) && p in s.procs && s.procs[p].pc == Idle && s.owner == Some(p)
    requires c == OpenFirst || c == OpenLast || (c.OpenNext? && c.n in s.procs[p].table)
    ensures
      var n := if c == OpenFirst then s.first else if c == OpenLast then s.last else (NextTyped(s, p, c.n); s.meta[s.procs[p].table[c.n]].next);
      var t := IdleStep(s, p, c);
      && p in t.procs && t.fchain == s.fchain && t.last == s.last && t.owner == s.owner && t.meta == s.meta
      && t.procs[p] == if n == NO_SEG || n in s.procs[p].table then s.procs[p] else s.procs[p].(pc := Resolving(n, ForWalk))
  {
    if c.OpenNext? {
      NextTyped(s, p, c.n);
    }
  }

  // A process that is up to date tracks every listed segment.
  lemma AllTracked(w: Wide, p: Proc, i: nat)
    requires Ready(w, p) && w.locals[p].act == Quiet && w.locals[p].at == w.bumps && w.core.owner == Some(p)
    ensures w.locals[p].order == w.core.fchain
    ensures i < |w.core.fchain| ==>
      w.core.fchain[i] in w.core.meta && InTable(w.core.procs[p].table, w.core.meta[w.core.fchain[i]].num, w.core.fchain[i])
  {
    hide Inv, TypeOk, ActOk, TipOk, NoDup;
    ReadyParts(w, p);
    var l := w.locals[p];
    assert l.order[|l.order| - 0..] == [] && l.order[0..|l.order| - 0] == l.order;
  }

  // ... so it never has to open one.
  lemma WalkFinds(w: Wide, p: Proc, c: Choice)
    requires Ready(w, p) && w.locals[p].act == Quiet && !c.Detach? && p in IdleStep(w.core, p, c).procs
    ensures ForWalks(IdleStep(w.core, p, c).procs[p].pc) ==> w.locals[p].at < w.bumps
  {
    hide Inv, TypeOk, ActOk, TipOk, NoDup, Shared, Abreast, Claim, IdleStep;
    var s := w.core;
    ReadyParts(w, p);
    if (c == OpenFirst || c == OpenLast || (c.OpenNext? && c.n in s.procs[p].table)) && s.owner == Some(p) {
      OpenIdle(s, p, c);
      if w.locals[p].at == w.bumps {
        WalkTracked(w, p, c);
      }
    } else {
      NotOpening(s, p, c);
    }
  }

  lemma NotOpening(s: State, p: Proc, c: Choice)
    requires TypeOk(s) && p in s.procs && s.procs[p].pc == Idle
    requires !((c == OpenFirst || c == OpenLast || (c.OpenNext? && c.n in s.procs[p].table)) && s.owner == Some(p))
    ensures p in IdleStep(s, p, c).procs && !ForWalks(IdleStep(s, p, c).procs[p].pc)
  {
    hide TypeOk, Goto, FindOrOpen, Untrack, Acquire, Release;
    var table := s.procs[p].table;
    match c
    case Create(size) => Going(s, p, Reserving(NextNumber(s.last), size));
    case Lock => HeldApart(s, p);
    case Unlock => HeldApart(s, p);
    case OpenFirst =>
    case OpenLast =>
    case OpenNext(n) =>
    case RemoveShared(n) =>
      if n in table {
        Going(s, p, Removing(table[n], RemPeek, Explicit));
      }
    case Detach(n) =>
      if n in table {
        Untracking(s, p, n, Detaching(table[n]));
      }
  }

  lemma WalkTracked(w: Wide, p: Proc, c: Choice)
    requires Ready(w, p) && w.locals[p].act == Quiet && w.locals[p].at == w.bumps && w.core.owner == Some(p)
    requires c == OpenFirst || c == OpenLast || (c.OpenNext? && c.n in w.core.procs[p].table)
    ensures
      var s := w.core;
      var n := if c == OpenFirst then s.first else if c == OpenLast then s.last else (NextTyped(s, p, c.n); s.meta[s.procs[p].table[c.n]].next);
      n == NO_SEG || n in s.procs[p].table
  {
    hide Inv, TypeOk, ActOk, TipOk, NoDup, Claim, IdleStep, Shared;
    var s := w.core;
    AllTracked(w, p, 0);
    ListEnds(s);
    if c == OpenFirst {
    } else if c == OpenLast {
      SameChains(s, p);
      if s.fchain != [] {
        AllTracked(w, p, |s.fchain| - 1);
      }
    } else {
      var o := s.procs[p].table[c.n];
      assert o in w.locals[p].order;
      var i :| 0 <= i < |s.fchain| && s.fchain[i] == o;
      ForwardLink(s, i);
      if i + 1 < |s.fchain| {
        AllTracked(w, p, i + 1);
      }
    }
  }

  // Outside a window both readings of the list agree.
  lemma SameChains(s: State, p: Proc)
    requires Inv(s) && Now(s) == Still
    ensures s.fchain == s.bchain
  {
    hide Names, Counts, Places, Tables, Held, LedgerOk, Procs;
  }

  // ----- choosing what to do -----

  lemma QuietKeeps(w: Wide, p: Proc, d: Deed)
    requires Ready(w, p) && w.locals[p].act == Quiet
    ensures Kept(w, QuietStep(w, p, d), p)
  {
    hide Inv, TypeOk, Shared, Abreast, Claim, OrderOk, TipOk, IdleStep, Kept, AgreedOk;
    var s, l := w.core, w.locals[p];
    ReadyParts(w, p);
    match d
    case Own(c) =>
      if c.Detach? {
        Nothing(w, p);
      } else {
        IdleTable(s, p, c);
        WalkFinds(w, p, c);
        IdleKeeps(w, p, c, Quiet);
      }
    case UpdateAll => Starts(w, p, l.(act := Entering));
    case UpdateLatest => Starts(w, p, l.(act := Peeking, tip := None, looks := []));
    case Clean =>
      ClaimAct(l, Cleaning(0), w.agreed, Now(s), w.bumps);
      LocalKept(w, p, l.(act := Cleaning(0)));
    case Leave =>
      ClaimAct(l, Leaving, w.agreed, Now(s), w.bumps);
      LocalKept(w, p, l.(act := Leaving));
    case Discard(n) =>
      if n in s.procs[p].table {
        DetachIdle(s, p, n);
        ClaimAct(l, Discarding(n), w.agreed, Now(s), w.bumps);
        IdleKeeps(w, p, RemoveShared(n), Discarding(n));
      } else {
        Nothing(w, p);
      }
  }

  lemma Nothing(w: Wide, p: Proc)
    requires Ready(w, p)
    ensures Kept(w, w, p)
  {
    hide Inv, TypeOk, Abreast, Shared;
    assert w == w.(locals := w.locals[p := w.locals[p]]);
  }

  // An update begins when the revision read is not the one the process has seen.
  lemma Starts(w: Wide, p: Proc, l: Local)
    requires Ready(w, p) && w.locals[p].act == Quiet
    requires l == w.locals[p].(act := Entering) || l == w.locals[p].(act := Peeking, tip := None, looks := [])
    ensures Kept(w, if w.locals[p].seen == w.core.rev then w else w.(locals := w.locals[p := l]), p)
  {
    hide Inv, TypeOk, Shared, Abreast, Claim, OrderOk, TipOk, Kept, AgreedOk;
    ReadyParts(w, p);
    Nothing(w, p);
    if w.locals[p].seen != w.core.rev {
      ClaimAct(w.locals[p], l.act, w.agreed, Now(w.core), w.bumps);
      ClaimLooks(w.locals[p].(act := l.act), l, w.agreed, Now(w.core), w.bumps);
      NoTip(w.agreed, Now(w.core), w.bumps);
      LocalKept(w, p, l);
    }
  }

  // What the process has read does not matter for its list.
  lemma ClaimLooks(l: Local, l': Local, agreed: seq<Obj>, win: Window, bumps: nat)
    requires Claim(l, Idle, agreed, win, bumps) && l'.order == l.order && l'.at == l.at && l'.act == l.act
    ensures Claim(l', Idle, agreed, win, bumps)
  {
    hide Like;
  }

  lemma ClaimAct(l: Local, act: Act, agreed: seq<Obj>, win: Window, bumps: nat)
    requires Claim(l, Idle, agreed, win, bumps) && (act == Leaving || Pending(act) == Pending(l.act)) && l.act != Leaving
    ensures Claim(l.(act := act), Idle, agreed, win, bumps)
  {
    hide Like;
  }

  // ----- updating all -----

  // The number the walk follows next is that of the next listed segment.
  lemma NextListed(w: Wide, p: Proc, i: nat)
    requires Ready(w, p) && w.locals[p].act == Walking(i)
    ensures i <= |w.core.fchain|
    ensures i > 0 ==> w.locals[p].order != [] && w.locals[p].order[|w.locals[p].order| - 1] == w.core.fchain[i - 1]
    ensures
      var s, order := w.core, w.locals[p].order;
      var n := if i == 0 then s.first else if s.fchain[i - 1] in s.meta then s.meta[s.fchain[i - 1]].next else NO_SEG;
      if i == |s.fchain| then n == NO_SEG else s.fchain[i] in s.meta && n == s.meta[s.fchain[i]].num && 0 <= n
  {
    hide Inv, TypeOk, Shared, Claim, OrderOk, TipOk;
    var s, order := w.core, w.locals[p].order;
    ListEnds(s);
    if i > 0 {
      ForwardLink(s, i - 1);
      assert order[|order| - i..][i - 1] == s.fchain[..i][i - 1];
    }
    if i < |s.fchain| {
      ListedHere(s, s.fchain[i]);
    }
  }

  lemma WalkKeeps(w: Wide, p: Proc, i: nat)
    requires Ready(w, p) && w.locals[p].act == Walking(i)
    ensures Kept(w, WalkStep(w, p, i), p)
  {
    hide Inv, TypeOk, Shared, Abreast, Claim, OrderOk, TipOk, Kept, AgreedOk, Tail, IdleStep, NoDup;
    var s, l := w.core, w.locals[p];
    ReadyParts(w, p);
    NextListed(w, p, i);
    if i == |s.fchain| {
      assert s.fchain[..i] == s.fchain;
      PastClaim(l.(act := Reached(i)), Idle, w.agreed, Now(s), w.bumps);
      LocalKept(w, p, l.(act := Reached(i)));
    } else if s.meta[s.fchain[i]].num in s.procs[p].table {
      WalkPlaces(w, p, i);
    } else {
      WalkOpens(w, p, i);
    }
  }

  lemma WalkPlaces(w: Wide, p: Proc, i: nat)
    requires Ready(w, p) && w.locals[p].act == Walking(i) && i < |w.core.fchain| && w.core.fchain[i] in w.core.meta
    requires w.core.meta[w.core.fchain[i]].num in w.core.procs[p].table
    ensures
      var o := w.core.procs[p].table[w.core.meta[w.core.fchain[i]].num];
      Kept(w, w.(locals := w.locals[p := w.locals[p].(order := MoveLast(w.locals[p].order, o), act := Walking(i + 1))]), p)
  {
    hide Inv, TypeOk, Shared, Abreast, Claim, TipOk, Kept, AgreedOk, Tail, NoDup;
    var s, l := w.core, w.locals[p];
    ReadyParts(w, p);
    var o := s.fchain[i];
    EntryListed(s, p, o);
    InOrder(s.meta, s.procs[p].table, l.order, s.meta[o].num);
    MovesOrder(s.meta, s.procs[p].table, l.order, o);
    NoDupChains(s);
    TailMoves(l.order, s.fchain, i);
    var l' := l.(order := MoveLast(l.order, o), act := Walking(i + 1));
    PastClaim(l', Idle, w.agreed, Now(s), w.bumps);
    LocalKept(w, p, l');
  }

  lemma InOrder(meta: map<Obj, Meta>, table: map<int, Obj>, order: seq<Obj>, n: int)
    requires OrderOk(meta, table, order) && n in table
    ensures table[n] in order && table[n] in meta && meta[table[n]].num == n
  {
    hide NoDup;
  }

  lemma MovesOrder(meta: map<Obj, Meta>, table: map<int, Obj>, order: seq<Obj>, o: Obj)
    requires OrderOk(meta, table, order) && o in order
    ensures OrderOk(meta, table, MoveLast(order, o)) && NoDup(MoveLast(order, o))
    ensures forall x :: x in MoveLast(order, o) <==> x in order
  {
    WithoutMembers(order, o);
    var r := Without(order, o);
    assert NoDup(r + [o]);
    assert forall x :: x in r + [o] <==> x in r || x == o;
  }

  lemma TailMoves(order: seq<Obj>, c: seq<Obj>, i: nat)
    requires NoDup(order) && NoDup(c) && i < |c| && Tail(order, c[..i]) && c[i] in order
    ensures Tail(MoveLast(order, c[i]), c[..i + 1])
  {
    var j :| 0 <= j < |order| && order[j] == c[i];
    WithoutAt(order, j);
    var r := order[..j] + order[j + 1..];
    forall k | |order| - i <= k < |order| ensures order[k] != c[i] {
      assert order[|order| - i..][k - (|order| - i)] == c[..i][k - (|order| - i)];
    }
    assert r[|r| - i..] == order[|order| - i..];
    TailGrows(r, c, i);
  }

  lemma WalkOpens(w: Wide, p: Proc, i: nat)
    requires Ready(w, p) && w.locals[p].act == Walking(i) && i < |w.core.fchain| && w.core.fchain[i] in w.core.meta
    requires w.core.meta[w.core.fchain[i]].num !in w.core.procs[p].table
    ensures Kept(w, WalkStep(w, p, i), p)
  {
    hide Inv, TypeOk, Shared, Abreast, Claim, TipOk, Kept, AgreedOk, Tail, NoDup, IdleStep;
    var s, l := w.core, w.locals[p];
    ReadyParts(w, p);
    NextListed(w, p, i);
    var here := if l.order == [] then NO_SEG else l.order[|l.order| - 1];
    var c := if i == 0 then OpenFirst else OpenNext(Number(s, here));
    if i > 0 {
      assert here in l.order;
    }
    OpenIdle(s, p, c);
    var t := IdleStep(s, p, c);
    var l' := l.(act := Fetching(i));
    PastClaim(l', Idle, w.agreed, Now(s), w.bumps);
    IdleKeeps(w, p, c, Fetching(i));
  }

  lemma UpdateKeeps(w: Wide, p: Proc)
    requires Ready(w, p) && Updating(w.locals[p].act)
    ensures Kept(w, UpdateStep(w, p), p)
  {
    hide Inv, TypeOk, Shared, Abreast, Claim, OrderOk, TipOk, Kept, AgreedOk, IdleStep, Tail;
    var s, l := w.core, w.locals[p];
    ReadyParts(w, p);
    match l.act
    case Entering =>
      LockIdle(s, p);
      if CanLock(s, p) {
        assert s.fchain[..0] == [];
        TailNone(l.order);
        PastClaim(l.(act := Walking(0)), Idle, w.agreed, Now(s), w.bumps);
        IdleKeeps(w, p, Lock, Walking(0));
      } else {
        Nothing(w, p);
      }
    case Walking(i) => WalkKeeps(w, p, i);
    case Fetching(i) =>
      PastClaim(l.(act := Walking(i + 1)), Idle, w.agreed, Now(s), w.bumps);
      LocalKept(w, p, l.(act := Walking(i + 1)));
    case Reached(i) => ReachKeeps(w, p, i);
    case Unlocking(k) =>
      LockIdle(s, p);
      ClaimAct(l, Dropping(k), w.agreed, Now(s), w.bumps);
      IdleKeeps(w, p, Unlock, Dropping(k));
    case Dropping(k) => DropKeeps(w, p, k);
  }

  lemma TailNone(order: seq<Obj>)
    ensures Tail(order, [])
  {}

  // With the whole list followed, and the lock held, the process is up to date.
  lemma ReachKeeps(w: Wide, p: Proc, i: nat)
    requires Ready(w, p) && w.locals[p].act == Reached(i)
    ensures Kept(w, UpdateStep(w, p), p)
  {
    hide Inv, TypeOk, Shared, Abreast, OrderOk, TipOk, Kept;
    var s, l := w.core, w.locals[p];
    ReadyParts(w, p);
    var k := |l.order| - i;
    var l' := l.(seen := s.rev, at := w.bumps, act := Unlocking(k));
    assert l.order[k..] == s.fchain;
    assert l.order[|l.order| - 0..] == [] && l.order[k..|l.order| - 0] == l.order[k..];
    LocalKept(w, p, l');
  }

  // A segment dropped in front leaves the list that was followed as it is.
  lemma ClaimDropped(l: Local, k: nat, agreed: seq<Obj>, win: Window, bumps: nat)
    requires Claim(l, Idle, agreed, win, bumps) && l.act == Dropping(k) && k > 0 && l.order != []
    ensures Claim(l.(order := Without(l.order, l.order[0]), act := Dropping(k - 1)), Idle, agreed, win, bumps)
  {
    hide Like;
    var r := l.order[1..];
    assert Without(l.order, l.order[0]) == r;
    if l.at == bumps {
      assert r[k - 1..|r| - 0] == l.order[k..|l.order| - 0];
      assert r[|r| - 0..] == [];
    }
  }

  lemma DropKeeps(w: Wide, p: Proc, k: nat)
    requires Ready(w, p) && w.locals[p].act == Dropping(k)
    ensures Kept(w, UpdateStep(w, p), p)
  {
    hide Inv, TypeOk, Shared, Abreast, TipOk, Kept, AgreedOk, IdleStep, Like, NoDup;
    var s, l := w.core, w.locals[p];
    ReadyParts(w, p);
    if k == 0 || l.order == [] {
      LocalKept(w, p, l.(act := Quiet));
    } else {
      var o := l.order[0];
      assert o in l.order;
      DetachIdle(s, p, s.meta[o].num);
      ClaimDropped(l, k, w.agreed, Now(s), w.bumps);
      IdleKeeps(w, p, SegmentModel.Detach(Number(s, o)), Dropping(k - 1));
    }
  }

  // ----- giving segments up -----

  // A segment of the agreed list reads as invalid only while it is being cut out.
  lemma InvalidIsCut(s: State, agreed: seq<Obj>, o: Obj)
    requires Inv(s) && AgreedOk(s.fchain, agreed, Now(s)) && NoDup(s.fchain) && o in agreed && o in s.meta && s.meta[o].invalid
    ensures Now(s).Cutting? && Now(s).o == o
  {
    hide Names, Counts, Procs, Tables, Held, LedgerOk, ListOk, LockOk;
    assert Place(s, o);
    var win := Now(s);
    if win.Joining? {
      JoinsNew(agreed, win.o);
    } else if win.Cutting? {
      WithoutMembers(agreed, win.o);
    }
  }

  lemma JoinsNew(c: seq<Obj>, o: Obj)
    requires NoDup(c + [o])
    ensures o !in c && forall x :: x in c + [o] <==> x in c || x == o
  {
    forall i | 0 <= i < |c| ensures c[i] != o {
      assert (c + [o])[i] == c[i] && (c + [o])[|c|] == o;
    }
  }

  // Dropping an invalid segment keeps a list in line.
  lemma ClaimCleaned(s: State, l: Local, o: Obj, act: Act, agreed: seq<Obj>, bumps: nat)
    requires Inv(s) && AgreedOk(s.fchain, agreed, Now(s)) && NoDup(s.fchain)
    requires Claim(l, Idle, agreed, Now(s), bumps) && l.act != Leaving && Pending(l.act) == Pending(act) == 0
    requires o in l.order && o in s.meta && s.meta[o].invalid
    ensures Claim(l.(order := Without(l.order, o), act := act), Idle, agreed, Now(s), bumps)
  {
    hide Inv, AgreedOk, NoDup;
    if l.at == bumps {
      WholeOrder(l.order);
      WholeOrder(Without(l.order, o));
      AgreedOnce(s.fchain, agreed, Now(s));
      if Now(s).Cutting? {
        WithoutMembers(agreed, Now(s).o);
      }
      InvalidIsCut(s, agreed, o);
    }
  }

  lemma WholeOrder(order: seq<Obj>)
    ensures order[0..|order| - 0] == order && order[|order| - 0..] == []
  {}

  lemma AgreedOnce(c: seq<Obj>, agreed: seq<Obj>, win: Window)
    requires AgreedOk(c, agreed, win)
    ensures NoDup(agreed)
  {
    hide NoDup;
  }

  // A process that has left is as it was at first.
  lemma ClaimLeft(l: Local, agreed: seq<Obj>, win: Window, bumps: nat)
    requires l == NEWCOMER && (bumps == 0 ==> agreed == [])
    ensures Claim(l, Idle, agreed, win, bumps)
  {}

  lemma CleanKeeps(w: Wide, p: Proc, i: nat)
    requires Ready(w, p) && w.locals[p].act == Cleaning(i)
    ensures Kept(w, DropStep(w, p, Clean), p)
  {
    hide Inv, TypeOk, Shared, Abreast, Claim, TipOk, Kept, AgreedOk, IdleStep, NoDup;
    var s, l := w.core, w.locals[p];
    ReadyParts(w, p);
    NoDupChains(s);
    if i >= |l.order| {
      ClaimAct(l, Quiet, w.agreed, Now(s), w.bumps);
      LocalKept(w, p, l.(act := Quiet));
    } else {
      var o := l.order[i];
      assert o in l.order;
      if s.meta[o].invalid {
        ClaimCleaned(s, l, o, Cleaning(i), w.agreed, w.bumps);
        DetachIdle(s, p, s.meta[o].num);
        IdleKeeps(w, p, SegmentModel.Detach(s.meta[o].num), Cleaning(i));
      } else {
        ClaimAct(l, Cleaning(i + 1), w.agreed, Now(s), w.bumps);
        LocalKept(w, p, l.(act := Cleaning(i + 1)));
      }
    }
  }

  lemma DiscardKeeps(w: Wide, p: Proc, n: int)
    requires Ready(w, p) && w.locals[p].act == Discarding(n)
    ensures Kept(w, DropStep(w, p, Clean), p)
  {
    hide Inv, TypeOk, Shared, Abreast, Claim, TipOk, Kept, AgreedOk, IdleStep, NoDup, OrderOk;
    var s, l := w.core, w.locals[p];
    ReadyParts(w, p);
    NoDupChains(s);
    InOrder(s.meta, s.procs[p].table, l.order, n);
    ClaimCleaned(s, l, s.procs[p].table[n], Quiet, w.agreed, w.bumps);
    DetachIdle(s, p, n);
    IdleKeeps(w, p, SegmentModel.Detach(n), Quiet);
  }

  lemma LeaveKeeps(w: Wide, p: Proc, d: Deed)
    requires Ready(w, p) && w.locals[p].act == Leaving
    ensures Kept(w, DropStep(w, p, d), p)
  {
    hide Inv, TypeOk, Shared, Abreast, TipOk, Kept, AgreedOk, IdleStep, NoDup, Like;
    var s, l := w.core, w.locals[p];
    ReadyParts(w, p);
    if l.order == [] {
      ClaimLeft(NEWCOMER, w.agreed, Now(s), w.bumps);
      assert TipOk(None, w.agreed, Now(s), w.bumps) by { NoTip(w.agreed, Now(s), w.bumps); }
      LocalKept(w, p, NEWCOMER);
    } else if d.Discard? && d.n in s.procs[p].table {
      DetachIdle(s, p, d.n);
      IdleKeeps(w, p, RemoveShared(d.n), Leaving);
    } else {
      var o := l.order[0];
      assert o in l.order;
      DetachIdle(s, p, s.meta[o].num);
      IdleKeeps(w, p, SegmentModel.Detach(Number(s, o)), Leaving);
    }
  }

  lemma NoTip(agreed: seq<Obj>, win: Window, bumps: nat)
    ensures TipOk(None, agreed, win, bumps)
  {}

  // ----- updating the latest -----

  // Outside a window, the last number is that of the last segment of the list.
  lemma LastIs(w: Wide, p: Proc)
    requires Ready(w, p) && w.core.last in w.core.procs[p].table
    ensures TipOk(Some((w.core.procs[p].table[w.core.last], w.bumps)), w.agreed, Now(w.core), w.bumps)
  {
    hide Inv, TypeOk, Shared, Abreast, NoDup;
    var s := w.core;
    ReadyParts(w, p);
    if Now(s) == Still {
      SameChains(s, p);
      ListEnds(s);
      EntryCurrent(s, p, s.last);
      NothingUnnamed(s);
      EntryListed(s, p, s.bchain[|s.bchain| - 1]);
    }
  }

  lemma PlaceKeeps(w: Wide, p: Proc, o: Obj, tip: Option<(Obj, nat)>)
    requires Ready(w, p) && w.locals[p].at < w.bumps && o in w.locals[p].order && TipOk(tip, w.agreed, Now(w.core), w.bumps)
    ensures Kept(w, Placed(w, p, o, tip), p)
  {
    hide Inv, TypeOk, Shared, Abreast, Claim, TipOk, Kept, AgreedOk, OrderOk;
    var l := w.locals[p];
    ReadyParts(w, p);
    MovesOrder(w.core.meta, w.core.procs[p].table, l.order, o);
    var l' := l.(order := MoveLast(l.order, o), act := Quiet, tip := tip);
    PastClaim(l', Idle, w.agreed, Now(w.core), w.bumps);
    LocalKept(w, p, l');
  }

  // A local change, then a step.
  lemma KeptThrough(w: Wide, p: Proc, l: Local, t: Wide)
    requires p in w.locals && Kept(w.(locals := w.locals[p := l]), t, p)
    ensures Kept(w, t, p)
  {
    hide Inv, Abreast, Moved, Turn;
    var u := w.(locals := w.locals[p := l]);
    assert p in t.locals && u.locals[p := t.locals[p]] == w.locals[p := t.locals[p]];
  }

  lemma OpenedKeeps(w: Wide, p: Proc)
    requires Ready(w, p) && w.locals[p].act == Opened
    ensures Kept(w, LatestStep(w, p), p)
  {
    hide Inv, TypeOk, Shared, Claim, Kept, AgreedOk, OrderOk, IdleStep, TipOk;
    var s, l := w.core, w.locals[p];
    ReadyParts(w, p);
    var o := l.order[|l.order| - 1];
    TrackedLast(s, p, l.order);
    LastIs(w, p);
    var l' := l.(tip := Some((o, w.bumps)));
    var u := w.(locals := w.locals[p := l']);
    LockIdle(s, p);
    PastClaim(l', Idle, w.agreed, Now(s), w.bumps);
    PastClaim(l'.(act := Quiet), Idle, w.agreed, Now(s), w.bumps);
    assert Ready(u, p) by { SharedSame(w, u); }
    IdleKeeps(u, p, Unlock, Quiet);
    KeptThrough(w, p, l', Follow(u, p, Unlock, Quiet));
    assert LatestStep(w, p) == Follow(u, p, Unlock, Quiet);
  }

  lemma SharedSame(w: Wide, u: Wide)
    requires Shared(w) && u.core == w.core && u.bumps == w.bumps && u.agreed == w.agreed && u.locals.Keys == w.locals.Keys
    ensures Shared(u)
  {
    hide AgreedOk;
  }

  lemma TrackedLast(s: State, p: Proc, order: seq<Obj>)
    requires p in s.procs && OrderOk(s.meta, s.procs[p].table, order) && order != []
    ensures
      var o := order[|order| - 1];
      o in s.meta && InTable(s.procs[p].table, s.meta[o].num, o)
  {
    hide NoDup;
    assert order[|order| - 1] in order;
  }

  lemma LookedReady(w: Wide, p: Proc)
    requires Ready(w, p)
    ensures Ready(Looked(w, p), p)
  {
    hide Inv, TypeOk, Claim, OrderOk, TipOk, AgreedOk;
    var l := w.locals[p];
    var l' := l.(looks := l.looks + [w.core.last]);
    ReadyParts(w, p);
    ClaimLooks(l, l', w.agreed, Now(w.core), w.bumps);
    LookedAct(w.core, p, l, w.bumps);
  }

  lemma LookedAct(s: State, p: Proc, l: Local, bumps: nat)
    requires p in s.procs && ActOk(s, p, l, s.procs[p], bumps)
    ensures ActOk(s, p, l.(looks := l.looks + [s.last]), s.procs[p], bumps)
  {}

  lemma CheckKeeps(w: Wide, p: Proc)
    requires Ready(w, p) && w.locals[p].act == Checking
    ensures Kept(w, LatestStep(w, p), p)
  {
    hide Inv, TypeOk, Shared, Abreast, Claim, TipOk, Kept, AgreedOk, IdleStep, OrderOk, Follow;
    var s, v := w.core, Looked(w, p);
    LookedReady(w, p);
    ReadyParts(v, p);
    var l := v.locals[p];
    if s.last in s.procs[p].table {
      var o := s.procs[p].table[s.last];
      LastIs(v, p);
      InOrder(s.meta, s.procs[p].table, l.order, s.last);
      var l' := l.(act := Found(o), tip := Some((o, w.bumps)));
      PastClaim(l', Idle, w.agreed, Now(s), w.bumps);
      LocalKept(v, p, l');
    } else if s.last == NO_SEG {
      assert l.looks[|l.looks| - 1] == NO_SEG;
      PastClaim(l.(act := Giving), Idle, w.agreed, Now(s), w.bumps);
      LocalKept(v, p, l.(act := Giving));
    } else {
      OpenIdle(s, p, OpenLast);
      PastClaim(l.(act := Opened), Idle, w.agreed, Now(s), w.bumps);
      IdleKeeps(v, p, OpenLast, Opened);
    }
    KeptThrough(w, p, l, LatestStep(w, p));
  }

  // The two reads of the last number without the lock.
  lemma PeekKeeps(w: Wide, p: Proc)
    requires Ready(w, p) && (w.locals[p].act == Peeking || w.locals[p].act == PeekingAgain)
    ensures Kept(w, LatestStep(w, p), p)
  {
    hide Inv, TypeOk, Shared, Abreast, Claim, TipOk, Kept, AgreedOk, IdleStep, OrderOk, Follow;
    var s, v := w.core, Looked(w, p);
    LookedReady(w, p);
    ReadyParts(v, p);
    if w.locals[p].act == PeekingAgain {
      LatestGoes(v, p, if s.last == NO_SEG then Quiet else Taking);
    } else if s.last in s.procs[p].table {
      LastIs(v, p);
      InOrder(s.meta, s.procs[p].table, v.locals[p].order, s.last);
      PlaceKeeps(v, p, s.procs[p].table[s.last], Some((s.procs[p].table[s.last], w.bumps)));
    } else {
      LatestGoes(v, p, PeekingAgain);
    }
    KeptThrough(w, p, v.locals[p], LatestStep(w, p));
  }

  lemma LatestKeeps(w: Wide, p: Proc)
    requires Ready(w, p) && !Updating(w.locals[p].act) && !GivingUp(w.locals[p].act) && w.locals[p].act != Quiet
    ensures Kept(w, LatestStep(w, p), p)
  {
    hide Inv, TypeOk, Shared, Abreast, Claim, TipOk, Kept, AgreedOk, IdleStep, OrderOk;
    var s, l := w.core, w.locals[p];
    ReadyParts(w, p);
    LockIdle(s, p);
    match l.act
    case Peeking => PeekKeeps(w, p);
    case PeekingAgain => PeekKeeps(w, p);
    case Taking =>
      if CanLock(s, p) {
        PastClaim(l.(act := Checking), Idle, w.agreed, Now(s), w.bumps);
        IdleKeeps(w, p, Lock, Checking);
      } else {
        Nothing(w, p);
      }
    case Checking => CheckKeeps(w, p);
    case Opened => OpenedKeeps(w, p);
    case Found(o) =>
      PastClaim(l.(act := Placing(o)), Idle, w.agreed, Now(s), w.bumps);
      IdleKeeps(w, p, Unlock, Placing(o));
    case Placing(o) => PlaceKeeps(w, p, o, l.tip);
    case Giving =>
      PastClaim(l.(act := Quiet), Idle, w.agreed, Now(s), w.bumps);
      IdleKeeps(w, p, Unlock, Quiet);
  }

  lemma LatestGoes(w: Wide, p: Proc, act: Act)
    requires Ready(w, p) && w.locals[p].at < w.bumps && (act == PeekingAgain || act == Quiet || act == Taking)
    ensures Kept(w, Enact(w, p, act), p)
  {
    hide Inv, TypeOk, Shared, Abreast, Claim, TipOk, Kept, AgreedOk, OrderOk;
    ReadyParts(w, p);
    var l' := w.locals[p].(act := act);
    PastClaim(l', Idle, w.agreed, Now(w.core), w.bumps);
    LocalKept(w, p, l');
  }
}
