/** What relates a process's own list to the shared one in every reachable state. */
module DirectiveInvariant {
  import opened Options
  import opened SegmentModel
  import opened SegmentInvariant
  import opened SegmentAccounts
  import opened DirectiveModel
  import opened DirectiveFrames

  // ----- the shared list and the last agreed one -----

  ghost predicate AgreedOk(c: seq<Obj>, agreed: seq<Obj>, win: Window) {
    NoDup(agreed) &&
    match win
    case Still => c == agreed
    case Joining(o) => c == agreed + [o]
    case Cutting(o, past) => o in agreed && c == if past then Without(agreed, o) else agreed
  }

  // A list that follows the agreed one: a segment that is being cut out, and so
  // already reads as invalid, may have been dropped.
  predicate Like(mid: seq<Obj>, agreed: seq<Obj>, win: Window) {
    mid == agreed || (win.Cutting? && mid == Without(agreed, win.o))
  }

  // ----- one process -----

  // The list and the table hold the same segments, each once.
  ghost predicate OrderOk(meta: map<Obj, Meta>, table: map<int, Obj>, order: seq<Obj>) {
    && NoDup(order)
    && (forall o :: o in order ==> o in meta && InTable(table, meta[o].num, o))
    && (forall n :: n in table ==> table[n] in order && table[n] in meta && meta[table[n]].num == n)
  }

  // Segments in front that are still to be dropped, and a segment at the end that
  // is tracked before it is shared.
  function Pending(act: Act): nat {
    match act
    case Unlocking(k) => k
    case Dropping(k) => k
    case _ => 0
  }

  function Extra(b: Pc): seq<Obj> {
    match b
    case Adding(o, a) => if a == AddLock || a == AddCheck then [o] else []
    case _ => []
  }

  // With no change since the process noted the revision, its list is the agreed
  // one, unless it is in the middle of a change itself, or leaving.
  ghost predicate Claim(l: Local, b: Pc, agreed: seq<Obj>, win: Window, bumps: nat) {
    l.at == bumps && l.act != Leaving && !Editing(b) ==>
      var k, x := Pending(l.act), Extra(b);
      && k + |x| <= |l.order| && l.order[|l.order| - |x|..] == x
      && Like(l.order[k..|l.order| - |x|], agreed, win)
  }

  ghost predicate TipOk(tip: Option<(Obj, nat)>, agreed: seq<Obj>, win: Window, bumps: nat) {
    tip.Some? ==>
      && tip.value.1 <= bumps
      && (tip.value.1 == bumps && win.Still? ==> agreed != [] && agreed[|agreed| - 1] == tip.value.0)
  }

  predicate Tail(order: seq<Obj>, c: seq<Obj>) {
    |c| <= |order| && order[|order| - |c|..] == c
  }

  predicate ForWalks(pc: Pc) {
    (pc.Resolving? || pc.Opening?) && pc.w == ForWalk
  }

  // How far a directive has come.
  ghost predicate ActOk(s: State, p: Proc, l: Local, x: Process, bumps: nat) {
    match l.act
    case Quiet => true
    case Dropping(_) => true
    case Cleaning(_) => true
    case Leaving => true
    case Walking(i) => x.pc == Idle && l.at < bumps && s.owner == Some(p) && i <= |s.fchain| && Tail(l.order, s.fchain[..i])
    case Fetching(i) => l.at < bumps && s.owner == Some(p) && i < |s.fchain| && FetchOk(s, l, x.pc, i)
    case Reached(i) => x.pc == Idle && l.at < bumps && s.owner == Some(p) && i == |s.fchain| && Tail(l.order, s.fchain)
    case Unlocking(k) => x.pc == Idle && l.at == bumps && s.owner == Some(p) && k <= |l.order| && l.order[k..] == s.fchain
    case Checking => x.pc == Idle && l.at < bumps && s.owner == Some(p)
    case Opened => l.at < bumps && s.owner == Some(p) && LastOk(s, l, x.pc)
    case Found(o) => x.pc == Idle && l.at < bumps && o in l.order && l.tip.Some? && l.tip.value.0 == o
    case Placing(o) => x.pc == Idle && l.at < bumps && o in l.order && l.tip.Some? && l.tip.value.0 == o
    case Giving => x.pc == Idle && l.at < bumps && NO_SEG in l.looks
    case Discarding(n) => n in x.table && DiscardOk(s, x.pc, x.table[n])
    case _ => x.pc == Idle && l.at < bumps
  }

  // Opening the segment that follows the first `i`.
  ghost predicate FetchOk(s: State, l: Local, pc: Pc, i: nat)
    requires i < |s.fchain|
  {
    match pc
    case Idle => Tail(l.order, s.fchain[..i + 1])
    case Resolving(n, w) => w == ForWalk && s.fchain[i] in s.meta && n == s.meta[s.fchain[i]].num && Tail(l.order, s.fchain[..i])
    case Opening(q, _, w) => w == ForWalk && q == s.fchain[i] && Tail(l.order, s.fchain[..i])
    case _ => false
  }

  // Opening the last segment.
  ghost predicate LastOk(s: State, l: Local, pc: Pc) {
    match pc
    case Idle => l.order != [] && l.order[|l.order| - 1] in s.meta && s.meta[l.order[|l.order| - 1]].num == s.last
    case Resolving(n, w) => w == ForWalk && n == s.last
    case Opening(q, _, w) => w == ForWalk && q in s.meta && s.meta[q].num == s.last
    case _ => false
  }

  // A removal is under way, and has left the segment invalid when it is over.
  ghost predicate DiscardOk(s: State, pc: Pc, o: Obj) {
    if pc == Idle then o in s.meta && s.meta[o].invalid
    else Base(pc).Removing? && Base(pc).o == o && Base(pc).r == Explicit
  }

  ghost predicate Abreast(w: Wide, p: Proc)
    requires p in w.locals && p in w.core.procs
  {
    var s, l, x := w.core, w.locals[p], w.core.procs[p];
    && OrderOk(s.meta, x.table, l.order)
    && l.at <= w.bumps && l.seen == RevAt(l.at)
    && Claim(l, Base(x.pc), w.agreed, Now(s), w.bumps)
    && TipOk(l.tip, w.agreed, Now(s), w.bumps)
    && (x.pc.Building? ==> x.pc.o in s.meta && s.meta[x.pc.o].num !in x.table)
    && (ForWalks(x.pc) ==> l.at < w.bumps)
    && ActOk(s, p, l, x, w.bumps)
  }

  ghost predicate Shared(w: Wide) {
    && w.locals.Keys == w.core.procs.Keys
    && AgreedOk(w.core.fchain, w.agreed, Now(w.core))
    && w.core.rev == RevAt(w.bumps) && (w.bumps == 0 ==> w.agreed == [])
  }

  ghost predicate WideInv(w: Wide) {
    && Inv(w.core) && Accounted(w.core) && TypeOk(w.core) && Shared(w)
    && forall p :: p in w.locals && p in w.core.procs ==> Abreast(w, p)
  }

  // ----- how the parts move -----

  lemma AgreedMoves(before: Window, after: Window, c: seq<Obj>, c': seq<Obj>, agreed: seq<Obj>, bump: bool)
    requires WindowMoves(before, after, c, c', bump) && AgreedOk(c, agreed, before) && NoDup(c')
    ensures AgreedOk(c', if bump then c' else agreed, after)
  {
    hide NoDup, Without;
  }

  lemma LikeMoves(before: Window, after: Window, c: seq<Obj>, c': seq<Obj>, mid: seq<Obj>, agreed: seq<Obj>)
    requires WindowMoves(before, after, c, c', false) && Like(mid, agreed, before)
    ensures Like(mid, agreed, after)
  {
    hide Without;
  }

  lemma TipMoves(before: Window, after: Window, c: seq<Obj>, c': seq<Obj>, tip: Option<(Obj, nat)>, agreed: seq<Obj>, bumps: nat, bump: bool)
    requires WindowMoves(before, after, c, c', bump) && TipOk(tip, agreed, before, bumps)
    ensures TipOk(tip, if bump then c' else agreed, after, if bump then bumps + 1 else bumps)
  {
    hide Without;
  }

  lemma ClaimMoves(l: Local, b: Pc, agreed: seq<Obj>, before: Window, after: Window, c: seq<Obj>, c': seq<Obj>, bumps: nat, bump: bool)
    requires WindowMoves(before, after, c, c', bump) && Claim(l, b, agreed, before, bumps) && l.at <= bumps
    ensures Claim(l, b, if bump then c' else agreed, after, if bump then bumps + 1 else bumps)
  {
    hide Without, Like, WindowMoves, Pending, Extra, Editing;
    if !bump && l.at == bumps && l.act != Leaving && !Editing(b) {
      LikeMoves(before, after, c, c', l.order[Pending(l.act)..|l.order| - |Extra(b)|], agreed);
    }
  }

  lemma RevNext(b: nat)
    ensures RevAt(b + 1) == NextRev(RevAt(b))
  {
    if b > 0 {
      var k, r := (b - 1) / REV_MAX, (b - 1) % REV_MAX;
      assert b - 1 == k * REV_MAX + r;
      assert b % REV_MAX == if r + 1 == REV_MAX then 0 else r + 1;
    }
  }

  // Two numbers of changes show the same revision only if they are equal or a
  // multiple of the range apart.
  lemma RevTells(a: nat, b: nat)
    requires a <= b
    ensures RevAt(a) == RevAt(b) <==> a == b || (a >= 1 && (b - a) % REV_MAX == 0)
  {
    if a >= 1 {
      SameRest(a - 1, b - 1, REV_MAX);
    }
  }

  lemma SameRest(x: nat, y: nat, m: nat)
    requires x <= y && m >= 1
    ensures x % m == y % m <==> (y - x) % m == 0
  {
    var i, j, k := x / m, y / m, (y - x) / m;
    var r, t, u := x % m, y % m, (y - x) % m;
    assert x == i * m + r && y == j * m + t && y - x == k * m + u;
    if r == t {
      assert (j - i) * m == k * m + u;
      Multiple(j - i - k, m, u);
    }
    if u == 0 {
      assert (j - i - k) * m == r - t;
      Multiple(if r >= t then j - i - k else i + k - j, m, if r >= t then r - t else t - r);
    }
  }

  lemma Multiple(q: int, m: nat, u: nat)
    requires q * m == u < m
    ensures u == 0
  {
    if q >= 1 {
      Grown(q, m);
    }
  }

  lemma Grown(q: int, m: nat)
    requires q >= 1
    ensures q * m >= m
  {}
}
