/** The loops and the recursion that compile subscripts into slices. */
module SubscriptParser {
  import opened Options
  import opened Products
  import opened Slicing
  import opened SliceParsing
  import opened SliceTheorems

  datatype Outcome =
    | NoSubscripts
    | TooFewDimensions
    | OutOfBounds
    | Parsed(starts: seq<nat>, lens: seq<nat>)

  // Subscripts as the callers pass them: dimensions and indices are positive, and
  // subscripts past the last dimension select nothing more.
  ghost predicate Shaped(dims: seq<nat>, subs: seq<Sub>) {
    && Positive(dims, subs)
    && (forall c :: |dims| <= c < |subs| ==> subs[c].All? || subs[c].indices == [1])
  }

  // How often the recursion visits the dimension below `c`.
  function Choices(dims: seq<nat>, subs: seq<Sub>, c: nat): nat
    requires c < |subs|
  {
    match subs[c]
    case All => if c < |dims| then dims[c] else 1
    case Idx(v) => |v|
  }

  // The starts there is room for, with `n` slice lengths.
  function Room(dims: seq<nat>, subs: seq<Sub>, n: nat, c: nat, base: nat): nat
    requires c < |subs|
  {
    if c <= base then n else Room(dims, subs, n, c - 1, base) * Choices(dims, subs, c)
  }

  // ----- the recursion -----

  // What one call leaves in the array of starts.
  ghost predicate Wrote(before: seq<nat>, after: seq<nat>, parsed: nat, w: Option<seq<nat>>, ok: bool, next: nat, room: nat) {
    && |after| == |before|
    && (ok <==> w.Some?)
    && (ok ==> parsed <= next <= |after| && next == parsed + |w.value| && |w.value| <= room
               && after[..next] == before[..parsed] + w.value)
  }

  method WalkBase(v: seq<nat>, sliceLens: array<nat>, ghost n: nat, mult: nat, anchor: nat, total: nat, starts: array<nat>, parsed: nat)
    returns (ok: bool, next: nat)
    requires n <= sliceLens.Length && starts != sliceLens && parsed + n <= starts.Length
    requires (forall k :: 0 <= k < |v| ==> v[k] >= 1) && Enough(v, sliceLens[..n], 0)
    modifies starts
    ensures Wrote(old(starts[..]), starts[..], parsed, BaseStarts(v, sliceLens[..n], 0, mult, anchor, total), ok, next, n)
  {
    var i, j := 0, 0;
    next := parsed;
    ghost var lens := sliceLens[..n];
    ghost var was := starts[..];
    ghost var done: seq<nat> := [];
    assert lens[0..] == lens;
    PrefixedEmpty(BaseStarts(v, lens, 0, mult, anchor, total));
    while i < |v|
      invariant i >= 0 && j <= n && next == parsed + j == parsed + |done| && sliceLens[..n] == lens
      invariant starts[..next] == was[..parsed] + done
      invariant Enough(v, lens[j..], i)
      invariant BaseStarts(v, lens, 0, mult, anchor, total) == Prefixed(done, BaseStarts(v, lens[j..], i, mult, anchor, total))
      decreases n - j
    {
      assert lens[j..] != [] && lens[j] == sliceLens[j] && lens[j..][1..] == lens[j + 1..];
      starts[next] := anchor + (v[i] - 1) * mult;
      if total < starts[next] + sliceLens[j] {
        return false, next;
      }
      PrefixedTwice(done, [starts[next]], BaseStarts(v, lens[j + 1..], i + lens[j], mult, anchor, total));
      done := done + [starts[next]];
      next := next + 1;
      i := i + sliceLens[j];
      j := j + 1;
    }
    assert done + [] == done;
    ok := true;
  }

  lemma PrefixedEmpty(r: Option<seq<nat>>)
    ensures Prefixed([], r) == r
  {
    if r.Some? {
      assert [] + r.value == r.value;
    }
  }

  lemma PrefixedTwice(a: seq<nat>, b: seq<nat>, r: Option<seq<nat>>)
    ensures Prefixed(a, Prefixed(b, r)) == Prefixed(a + b, r)
  {
    if r.Some? {
      assert a + (b + r.value) == (a + b) + r.value;
    }
  }

  // Whether the walk over the base subscript is within its slice lengths.
  ghost predicate Walkable(subs: seq<Sub>, c: nat, base: nat, lens: seq<nat>)
    requires c < |subs|
  {
    var b := if c <= base then c else base;
    if subs[b].All? then lens != [] else Enough(subs[b].indices, lens, 0)
  }

  // The slots of `i` visits.
  function Slots(i: nat, room: nat): nat {
    i * room
  }

  lemma NoSlots(room: nat)
    ensures Slots(0, room) == 0
  {}

  lemma FitsOnce(count: nat, i: nat, room: nat, done: nat)
    requires i < count && done <= Slots(i, room)
    ensures done + room <= Slots(i + 1, room) <= Slots(count, room)
  {
    MulOrder(i + 1, count, room);
  }

  // One call of the recursion after another.
  lemma WroteMore(was: seq<nat>, before: seq<nat>, after: seq<nat>, parsed: nat, done: seq<nat>, w: Option<seq<nat>>, next: nat, room: nat)
    requires parsed + |done| <= |before| == |was| && before[..parsed + |done|] == was[..parsed] + done
    requires Wrote(before, after, parsed + |done|, w, true, next, room)
    ensures w.Some? && next == parsed + |done + w.value| <= |after| && after[..next] == was[..parsed] + (done + w.value)
  {}

  // Finds the starts for the dimensions up to `c`.
  method ParseIndicesWorker(dims: seq<nat>, subs: seq<Sub>, total: nat, starts: array<nat>, sliceLens: array<nat>, ghost n: nat,
                            parsed: nat, c: nat, base: nat, mult: nat, anchor: nat)
    returns (ok: bool, next: nat)
    requires c < |subs| && Positive(dims, subs) && n <= sliceLens.Length && starts != sliceLens
    requires Walkable(subs, c, base, sliceLens[..n])
    requires parsed + Room(dims, subs, n, c, base) <= starts.Length
    modifies starts
    ensures Wrote(old(starts[..]), starts[..], parsed, WorkerStarts(dims, subs, total, sliceLens[..n], c, base, mult, anchor), ok, next, Room(dims, subs, n, c, base))
    decreases c, 0
  {
    if c > base {
      if c < |dims| {
        ok, next := VisitEach(dims, subs, total, starts, sliceLens, n, parsed, c, base, mult, anchor);
      } else {
        ok, next := VisitAgain(dims, subs, total, starts, sliceLens, n, parsed, c, base, mult, anchor);
      }
    } else {
      match subs[c]
      case All =>
        starts[parsed] := anchor;
        ok, next := total >= starts[parsed] + sliceLens[0], parsed + 1;
      case Idx(v) =>
        ok, next := WalkBase(v, sliceLens, n, mult, anchor, total, starts, parsed);
    }
  }

  // One recursion for each index along dimension `c`.
  method VisitEach(dims: seq<nat>, subs: seq<Sub>, total: nat, starts: array<nat>, sliceLens: array<nat>, ghost n: nat,
                   parsed: nat, c: nat, base: nat, mult: nat, anchor: nat)
    returns (ok: bool, next: nat)
    requires base < c < |subs| && c < |dims| && Positive(dims, subs) && n <= sliceLens.Length && starts != sliceLens
    requires Walkable(subs, c, base, sliceLens[..n])
    requires parsed + Room(dims, subs, n, c, base) <= starts.Length
    modifies starts
    ensures Wrote(old(starts[..]), starts[..], parsed, WorkerStarts(dims, subs, total, sliceLens[..n], c, base, mult, anchor), ok, next, Room(dims, subs, n, c, base))
    decreases c - 1, 1
  {
    hide WorkerStarts, EachStarts, Walkable, Enough, Room, Positive, Slots, Picked, Choices;
    ghost var lens, was, done: seq<nat> := sliceLens[..n], starts[..], [];
    ghost var room, v := Room(dims, subs, n, c - 1, base), Picked(subs[c], dims[c]);
    VisitStart(dims, subs, total, lens, n, c, base, mult, anchor);
    next := parsed;
    NoSlots(room);
    var i, count := 0, Choices(dims, subs, c);
    while i < count
      invariant i <= count == |v| && |done| <= Slots(i, room) && next == parsed + |done| <= starts.Length && sliceLens[..n] == lens
      invariant starts[..next] == was[..parsed] + done
      invariant WorkerStarts(dims, subs, total, lens, c, base, mult, anchor)
             == Joined(Some(done), EachStarts(dims, subs, total, lens, c, base, mult, anchor, v[i..]))
    {
      FitsOnce(count, i, room, |done|);
      IndexOf(subs[c], dims[c], i);
      var index := if subs[c].All? then i else subs[c].indices[i] - 1;
      var lower, from := mult / dims[c - 1], anchor + index * mult;
      assert from == anchor + (v[i] - 1) * mult;
      ghost var before := starts[..];
      ok, next := ParseIndicesWorker(dims, subs, total, starts, sliceLens, n, next, c - 1, base, lower, from);
      ghost var w := WorkerStarts(dims, subs, total, lens, c - 1, base, lower, from);
      VisitNext(dims, subs, total, lens, c, base, mult, anchor, v, i);
      if !ok {
        return;
      }
      WroteMore(was, before, starts[..], parsed, done, w, next, room);
      PrefixedTwice(done, w.value, EachStarts(dims, subs, total, lens, c, base, mult, anchor, v[i + 1..]));
      done := done + w.value;
      i := i + 1;
    }
    assert v[i..] == [] && done + [] == done;
    EachNone(dims, subs, total, lens, c, base, mult, anchor);
    ok := true;
  }

  lemma IndexOf(sub: Sub, n: nat, i: nat)
    requires i < |Picked(sub, n)|
    ensures sub.Idx? ==> i < |sub.indices|
    ensures Picked(sub, n)[i] == if sub.All? then i + 1 else sub.indices[i]
  {}

  lemma VisitNext(dims: seq<nat>, subs: seq<Sub>, total: nat, lens: seq<nat>, c: nat, base: nat, mult: nat, anchor: nat, v: seq<nat>, i: nat)
    requires base < c < |subs| && c < |dims| && Positive(dims, subs) && (forall k :: 0 <= k < |v| ==> v[k] >= 1) && i < |v|
    ensures dims[c - 1] >= 1
    ensures EachStarts(dims, subs, total, lens, c, base, mult, anchor, v[i..])
      == Joined(WorkerStarts(dims, subs, total, lens, c - 1, base, mult / dims[c - 1], anchor + (v[i] - 1) * mult),
                EachStarts(dims, subs, total, lens, c, base, mult, anchor, v[i + 1..]))
  {
    hide WorkerStarts;
    assert v[i..][0] == v[i] && v[i..][1..] == v[i + 1..];
  }

  lemma VisitStart(dims: seq<nat>, subs: seq<Sub>, total: nat, lens: seq<nat>, n: nat, c: nat, base: nat, mult: nat, anchor: nat)
    requires base < c < |subs| && Positive(dims, subs) && Walkable(subs, c, base, lens)
    ensures Walkable(subs, c - 1, base, lens)
    ensures Room(dims, subs, n, c, base) == Slots(Choices(dims, subs, c), Room(dims, subs, n, c - 1, base))
    ensures c < |dims| ==>
      var v := Picked(subs[c], dims[c]);
      && dims[c - 1] >= 1 && |v| == Choices(dims, subs, c) && (forall k :: 0 <= k < |v| ==> v[k] >= 1) && v[0..] == v
      && WorkerStarts(dims, subs, total, lens, c, base, mult, anchor)
         == Joined(Some([]), EachStarts(dims, subs, total, lens, c, base, mult, anchor, v))
    ensures c >= |dims| ==>
      WorkerStarts(dims, subs, total, lens, c, base, mult, anchor)
      == Joined(Some([]), RepeatStarts(dims, subs, total, lens, c, base, mult, anchor, Choices(dims, subs, c)))
  {
    var k := Choices(dims, subs, c);
    if c < |dims| {
      PrefixedEmpty(EachStarts(dims, subs, total, lens, c, base, mult, anchor, Picked(subs[c], dims[c])));
    } else {
      PrefixedEmpty(RepeatStarts(dims, subs, total, lens, c, base, mult, anchor, k));
      if subs[c].All? {
        var w := WorkerStarts(dims, subs, total, lens, c - 1, base, mult, anchor);
        assert RepeatStarts(dims, subs, total, lens, c, base, mult, anchor, 0) == Some([]);
        if w.Some? {
          PrefixedNone(w.value, None);
        }
      }
    }
  }

  // The same recursion again for each index past the last dimension.
  method VisitAgain(dims: seq<nat>, subs: seq<Sub>, total: nat, starts: array<nat>, sliceLens: array<nat>, ghost n: nat,
                    parsed: nat, c: nat, base: nat, mult: nat, anchor: nat)
    returns (ok: bool, next: nat)
    requires base < c < |subs| && c >= |dims| && Positive(dims, subs) && n <= sliceLens.Length && starts != sliceLens
    requires Walkable(subs, c, base, sliceLens[..n])
    requires parsed + Room(dims, subs, n, c, base) <= starts.Length
    modifies starts
    ensures Wrote(old(starts[..]), starts[..], parsed, WorkerStarts(dims, subs, total, sliceLens[..n], c, base, mult, anchor), ok, next, Room(dims, subs, n, c, base))
    decreases c - 1, 1
  {
    hide WorkerStarts, Walkable, Enough, Room, Positive, Slots;
    ghost var lens, was, done: seq<nat> := sliceLens[..n], starts[..], [];
    ghost var room, w := Room(dims, subs, n, c - 1, base), WorkerStarts(dims, subs, total, lens, c - 1, base, mult, anchor);
    VisitStart(dims, subs, total, lens, n, c, base, mult, anchor);
    next := parsed;
    NoSlots(room);
    var i, count := 0, Choices(dims, subs, c);
    while i < count
      invariant i <= count && |done| <= Slots(i, room) && next == parsed + |done| <= starts.Length && sliceLens[..n] == lens
      invariant starts[..next] == was[..parsed] + done
      invariant WorkerStarts(dims, subs, total, lens, c, base, mult, anchor)
             == Joined(Some(done), RepeatStarts(dims, subs, total, lens, c, base, mult, anchor, count - i))
    {
      FitsOnce(count, i, room, |done|);
      ghost var before := starts[..];
      ok, next := ParseIndicesWorker(dims, subs, total, starts, sliceLens, n, next, c - 1, base, mult, anchor);
      if !ok {
        return;
      }
      WroteMore(was, before, starts[..], parsed, done, w, next, room);
      PrefixedTwice(done, w.value, RepeatStarts(dims, subs, total, lens, c, base, mult, anchor, count - (i + 1)));
      done := done + w.value;
      i := i + 1;
    }
    assert done + [] == done;
    ok := true;
  }

  // ----- the base dimension and the slice lengths -----

  lemma StrideAll(dims: seq<nat>)
    ensures Stride(dims, |dims|) == Prod(dims) && Stride(dims, 0) == 1
  {
    assert dims[..|dims|] == dims && dims[..0] == [];
  }

  lemma {:induction false} BaseDimNext(dims: seq<nat>, subs: seq<Sub>, c: nat)
    requires c < |dims| && c < |subs|
    ensures IsFull(subs[c], dims[c]) && !(subs[c].All? && c + 1 == |subs|) ==> BaseDim(dims, subs, c) == BaseDim(dims, subs, c + 1)
    ensures !IsFull(subs[c], dims[c]) ==> BaseDim(dims, subs, c) == c
    ensures subs[c].All? && c + 1 == |subs| ==> BaseDim(dims, subs, c) == |dims|
  {}

  // The base dimension, and the elements in one step along it.
  method FindBase(dims: seq<nat>, subs: seq<Sub>) returns (base: nat, mult: nat)
    requires |subs| >= 1 && |dims| >= 1
    ensures base == BaseDim(dims, subs, 0) <= |dims| && mult == Stride(dims, base)
  {
    hide BaseDim, Stride;
    base, mult := 0, 1;
    StrideAll(dims);
    while base < |dims| && base < |subs|
      invariant base <= |dims| && base <= |subs|
      invariant BaseDim(dims, subs, 0) == BaseDim(dims, subs, base) && mult == Stride(dims, base)
      decreases |dims| - base
    {
      BaseDimNext(dims, subs, base);
      StrideNext(dims, base);
      match subs[base] {
        case All =>
          if base + 1 == |subs| {
            while base < |dims|
              invariant base <= |dims| && mult == Stride(dims, base)
            {
              StrideNext(dims, base);
              mult, base := mult * dims[base], base + 1;
            }
            return;
          }
        case Idx(v) =>
          if |v| != dims[base] {
            return;
          }
          var j := 0;
          while j < |v|
            invariant j <= |v| && forall k :: 0 <= k < j ==> v[k] == k + 1
          {
            if v[j] != j + 1 {
              return;
            }
            j := j + 1;
          }
      }
      mult, base := mult * dims[base], base + 1;
    }
    BaseDimEnd(dims, subs, base);
  }

  lemma BaseDimEnd(dims: seq<nat>, subs: seq<Sub>, c: nat)
    requires c >= |dims| || c >= |subs|
    ensures BaseDim(dims, subs, c) == c
  {}

  // Where a run ends is settled by what it holds and what comes next.
  lemma RunEndIs(v: seq<nat>, i: nat, e: nat)
    requires i < e <= |v| && (forall k :: i <= k < e ==> v[k] == v[i] + (k - i)) && (e < |v| ==> v[e] != v[i] + (e - i))
    ensures RunEnd(v, i) == e
  {
    var r := RunEnd(v, i);
  }

  // The length of each run of consecutive indices, in elements.
  method FindLens(v: seq<nat>, mult: nat) returns (lens: array<nat>, numLens: nat)
    requires forall k :: 0 <= k < |v| ==> v[k] >= 1
    ensures numLens <= lens.Length && lens[..numLens] == Scaled(Runs(v, 0), mult)
  {
    hide Runs, RunEnd, Scaled;
    lens := new nat[|v|];
    numLens := 0;
    var i := 0;
    ghost var goal, done: seq<nat> := Scaled(Runs(v, 0), mult), [];
    assert [] + goal == goal;
    while i < |v|
      invariant numLens <= i <= |v| == lens.Length && numLens == |done|
      invariant lens[..numLens] == done && goal == done + Scaled(Runs(v, i), mult)
    {
      ghost var from := i;
      var next := v[i];
      lens[numLens] := 0;
      i, next, lens[numLens] := i + 1, next + 1, lens[numLens] + 1;
      while i < |v| && next == v[i]
        invariant from < i <= |v| && next == v[from] + (i - from) && lens[numLens] == i - from && lens[..numLens] == done
        invariant forall k :: from <= k < i ==> v[k] == v[from] + (k - from)
        decreases |v| - i
      {
        i, next, lens[numLens] := i + 1, next + 1, lens[numLens] + 1;
      }
      RunEndIs(v, from, i);
      lens[numLens] := lens[numLens] * mult;
      RunsNext(v, from, mult);
      OneMore(done, lens[numLens], Scaled(Runs(v, i), mult));
      done := done + [lens[numLens]];
      numLens := numLens + 1;
    }
    NoRuns(v, i);
    ScaledNone(mult);
    assert done + [] == done;
  }

  lemma OneMore(a: seq<nat>, x: nat, b: seq<nat>)
    ensures a + ([x] + b) == (a + [x]) + b
  {}

  lemma ScaledNone(d: nat)
    ensures Scaled([], d) == []
  {}

  lemma RunsNext(v: seq<nat>, i: nat, mult: nat)
    requires i < |v|
    ensures Scaled(Runs(v, i), mult) == [(RunEnd(v, i) - i) * mult] + Scaled(Runs(v, RunEnd(v, i)), mult)
  {}

  // ----- the parser -----

  lemma {:induction false} RoomNext(dims: seq<nat>, subs: seq<Sub>, n: nat, c: nat, base: nat)
    requires c < |subs|
    ensures c <= base ==> Room(dims, subs, n, c, base) == n
    ensures c > base ==> Room(dims, subs, n, c, base) == Room(dims, subs, n, c - 1, base) * Choices(dims, subs, c)
  {}

  // The slots for the starts: the slice lengths times the choices above the base
  // dimension.
  method CountStarts(dims: seq<nat>, subs: seq<Sub>, n: nat, base: nat) returns (count: nat)
    requires |subs| >= 1
    ensures count == Room(dims, subs, n, |subs| - 1, base)
  {
    hide Room;
    count := n;
    var i := base + 1;
    RoomNext(dims, subs, n, if base < |subs| then base else |subs| - 1, base);
    while i < |subs|
      invariant base < i
      invariant i <= |subs| ==> count == Room(dims, subs, n, i - 1, base)
      invariant i > |subs| ==> count == Room(dims, subs, n, |subs| - 1, base)
      decreases |subs| - i
    {
      RoomNext(dims, subs, n, i, base);
      match subs[i] {
        case All =>
          if i < |dims| {
            count := count * dims[i];
          }
        case Idx(v) =>
          count := count * |v|;
      }
      i := i + 1;
    }
  }

  // The walk over the base subscript finds a length at every step.
  lemma ShapedWalks(dims: seq<nat>, subs: seq<Sub>)
    requires |subs| >= 1 && |dims| >= 2 && Shaped(dims, subs)
    ensures
      var base := BaseDim(dims, subs, 0);
      && base <= |dims| && (base < |dims| ==> base <= |subs| && subs[if base < |subs| then base else |subs| - 1].Idx?)
      && Walkable(subs, |subs| - 1, base, SliceLens(dims, subs))
  {
    hide Runs, RunEnd, Prod, BaseDim, Stride, Enough;
    var base := BaseDim(dims, subs, 0);
    BaseDimMeans(dims, subs, 0);
    if base < |dims| {
      var last := if base < |subs| then base else |subs| - 1;
      StridePositive(dims, base);
      WalkEnough(subs[last].indices, 0, 0, Stride(dims, base));
    } else {
      var b := if |subs| - 1 <= base then |subs| - 1 else base;
      if subs[b].Idx? {
        ProdPositive(dims);
        if b < |dims| {
          ProdAtLeast(dims, b);
        }
        OneLength(subs[b].indices, Prod(dims));
      }
    }
  }

  lemma OneLength(v: seq<nat>, n: nat)
    requires |v| <= n && n >= 1
    ensures Enough(v, [n], 0)
  {
    assert [n][1..] == [];
    assert Enough(v, [], 0 + n);
  }

  lemma {:induction false} ProdAtLeast(dims: seq<nat>, k: nat)
    requires k < |dims| && forall i :: 0 <= i < |dims| ==> dims[i] >= 1
    ensures Prod(dims) >= dims[k]
  {
    ProdPositive(dims[1..]);
    if k == 0 {
      MulAtLeast(dims[0], Prod(dims[1..]));
    } else {
      ProdAtLeast(dims[1..], k - 1);
      MulAtLeast(Prod(dims[1..]), dims[0]);
    }
  }

  // There is one slot for each start there should be.
  lemma {:induction false} RightRoom(dims: seq<nat>, eff: seq<nat>, subs: seq<Sub>, c: nat, base: nat, anchor: nat)
    requires Agree(dims, eff, subs, base) && base <= c < |eff|
    ensures |RightStarts(eff, subs, c, base, anchor)| == Room(dims, subs, |Lens(eff, subs, base)|, c, base)
    decreases c, 0
  {
    if c > base {
      RightEachRoom(dims, eff, subs, c, base, anchor, Picked(subs[c], eff[c]));
    }
  }

  lemma {:induction false} RightEachRoom(dims: seq<nat>, eff: seq<nat>, subs: seq<Sub>, c: nat, base: nat, anchor: nat, v: seq<nat>)
    requires Agree(dims, eff, subs, base) && base < c < |eff| && forall k :: 0 <= k < |v| ==> v[k] >= 1
    ensures |RightEach(eff, subs, c, base, anchor, v)| == Room(dims, subs, |Lens(eff, subs, base)|, c - 1, base) * |v|
    decreases c - 1, 1, |v|
  {
    hide Room, RightStarts, Lens;
    if v != [] {
      RightRoom(dims, eff, subs, c - 1, base, anchor + (v[0] - 1) * Stride(eff, c));
      RightEachRoom(dims, eff, subs, c, base, anchor, v[1..]);
    }
  }

  lemma {:induction false} RoomPast(dims: seq<nat>, subs: seq<Sub>, n: nat, c: nat, base: nat, floor: nat)
    requires c < |subs| && floor <= c && base <= floor && |dims| <= floor + 1
    requires forall k :: |dims| <= k < |subs| ==> subs[k].All? || subs[k].indices == [1]
    ensures Room(dims, subs, n, c, base) == Room(dims, subs, n, floor, base)
    decreases c
  {
    if c > floor {
      RoomPast(dims, subs, n, c - 1, base, floor);
    }
  }

  // The starts the parser makes room for.
  ghost function NumStarts(dims: seq<nat>, subs: seq<Sub>): nat
    requires |subs| >= 1
  {
    Room(dims, subs, |SliceLens(dims, subs)|, |subs| - 1, BaseDim(dims, subs, 0))
  }

  // The slots come in whole groups, one start for each length.
  lemma {:induction false} RoomGrouped(dims: seq<nat>, subs: seq<Sub>, n: nat, c: nat, base: nat) returns (k: nat)
    requires c < |subs|
    ensures Room(dims, subs, n, c, base) == k * n
  {
    if c <= base {
      k := 1;
    } else {
      k := RoomGrouped(dims, subs, n, c - 1, base);
      Regroup(k, n, Choices(dims, subs, c));
      k := k * Choices(dims, subs, c);
    }
  }

  lemma Regroup(a: nat, b: nat, c: nat)
    ensures a * b * c == a * c * b
  {}

  lemma SomeFilled(dims: seq<nat>, subs: seq<Sub>)
    requires Handled(dims, subs)
    ensures |SliceLens(dims, subs)| > 0
    ensures
      var w := ParsedStarts(dims, subs);
      Compact(dims, subs) <==>
      w.Some? && |w.value| == NumStarts(dims, subs) && Expand(w.value, SliceLens(dims, subs)) == Selection(dims, subs)
  {
    hide Expand, Single, Runs, Prod, ParsedStarts, SliceLens, Selected, Agree, Lens, InRange, Room, RightStarts;
    BaseDimMeans(dims, subs, 0);
    var base := BaseDim(dims, subs, 0);
    if base == |dims| {
      WholeStarts(dims, subs);
      WholeSelected(dims, subs);
      WholeExpands(Prod(dims));
      var floor := if |subs| - 1 < |dims| then |subs| - 1 else |dims|;
      if floor == |dims| {
        RoomPast(dims, subs, 1, |subs| - 1, base, floor);
      }
      RoomNext(dims, subs, 1, floor, base);
    } else if base >= |subs| {
      LinearFilled(dims, subs);
    } else if Unmerged(dims, subs) {
      PartFilled(dims, subs);
    } else {
      MergedShort(dims, subs);
    }
  }

  // Every subscript selects all of its dimension, but the last one, by number, only
  // a part of the merged ones: the slice is too long by the factor of its length.
  lemma LinearFilled(dims: seq<nat>, subs: seq<Sub>)
    requires Handled(dims, subs) && BaseDim(dims, subs, 0) == |subs| < |dims|
    ensures |SliceLens(dims, subs)| > 0
    ensures
      var w := ParsedStarts(dims, subs);
      Compact(dims, subs) <==>
      w.Some? && |w.value| == NumStarts(dims, subs) && Expand(w.value, SliceLens(dims, subs)) == Selection(dims, subs)
  {
    hide Expand, Prod, Runs, Stride, Selected, Range, BaseDim, RunEnd, Spread;
    var last := |subs| - 1;
    var d, low := dims[last], Stride(dims, last);
    BaseDimMeans(dims, subs, 0);
    LinearWalk(dims, subs);
    LinearSelects(dims, subs);
    WholeExpands(d * (low * d));
    StridePositive(dims, last);
    LongerRow(low, d);
  }

  lemma LongerRow(low: nat, d: nat)
    requires low >= 1 && d >= 1
    ensures d * (low * d) == low * d <==> d == 1
  {
    MulAtLeast(low, d);
    if d >= 2 {
      MulAtLeast2(low * d, d);
    }
  }

  lemma LinearWalk(dims: seq<nat>, subs: seq<Sub>)
    requires Handled(dims, subs) && BaseDim(dims, subs, 0) == |subs| < |dims|
    ensures
      var d, low := dims[|subs| - 1], Stride(dims, |subs| - 1);
      && SliceLens(dims, subs) == [d * (low * d)] && NumStarts(dims, subs) == 1
      && ParsedStarts(dims, subs) == (if Prod(dims) < d * (low * d) then None else Some([0]))
      && low * d <= Prod(dims)
  {
    hide Prod, Runs, Stride, BaseDim, BaseStarts, SliceLens, Room, WorkerStarts, Handled;
    var last := |subs| - 1;
    LinearLast(dims, subs);
    var v, d, low := subs[last].indices, dims[last], Stride(dims, last);
    LinearLens(dims, subs);
    StrideNext(dims, last);
    StridePositive(dims, last);
    MulAtLeast(low, d);
    MulAtLeast(d, low * d);
    OneStart(v, d * (low * d), low, Prod(dims));
    StrideBound(dims, |subs|);
    RoomNext(dims, subs, 1, last, |subs|);
    LinearStarts(dims, subs, [d * (low * d)]);
  }

  lemma LinearLast(dims: seq<nat>, subs: seq<Sub>)
    requires Handled(dims, subs) && BaseDim(dims, subs, 0) == |subs| < |dims|
    ensures |subs| >= 1 && Positive(dims, subs) && forall k :: 0 <= k < |dims| ==> dims[k] >= 1
    ensures
      var last := |subs| - 1;
      && subs[last].Idx? && |subs[last].indices| == dims[last]
      && forall k :: 0 <= k < dims[last] ==> subs[last].indices[k] == k + 1
  {
    hide BaseDim, Prod;
    BaseDimMeans(dims, subs, 0);
  }

  lemma LinearLens(dims: seq<nat>, subs: seq<Sub>)
    requires Handled(dims, subs) && BaseDim(dims, subs, 0) == |subs| < |dims|
    ensures SliceLens(dims, subs) == [dims[|subs| - 1] * (Stride(dims, |subs| - 1) * dims[|subs| - 1])]
  {
    hide Prod, Runs, Stride, BaseDim, Handled;
    var last := |subs| - 1;
    LinearLast(dims, subs);
    StrideNext(dims, last);
    FullRun(subs[last].indices, dims[last], Stride(dims, last) * dims[last]);
  }

  lemma LinearStarts(dims: seq<nat>, subs: seq<Sub>, lens: seq<nat>)
    requires 0 < |subs| < |dims| && Positive(dims, subs) && BaseDim(dims, subs, 0) == |subs| && lens == SliceLens(dims, subs)
    requires subs[|subs| - 1].Idx?
    ensures ParsedStarts(dims, subs) == BaseStarts(subs[|subs| - 1].indices, lens, 0, Stride(dims, |subs| - 1), 0, Prod(dims))
  {
    hide Prod, Stride, BaseDim, SliceLens, BaseStarts;
  }

  // All the indices of a dimension are one run.
  lemma FullRun(v: seq<nat>, d: nat, mult: nat)
    requires |v| == d >= 1 && forall k :: 0 <= k < d ==> v[k] == k + 1
    ensures Scaled(Runs(v, 0), mult) == [d * mult]
  {
    hide Runs, RunEnd;
    RunEndIs(v, 0, d);
    RunsNext(v, 0, mult);
    NoRuns(v, d);
  }

  lemma OneStart(v: seq<nat>, n: nat, mult: nat, total: nat)
    requires 1 <= |v| <= n && (forall k :: 0 <= k < |v| ==> v[k] == k + 1)
    ensures BaseStarts(v, [n], 0, mult, 0, total) == if total < n then None else Some([0])
  {
    assert [n][1..] == [];
    assert (v[0] - 1) * mult == 0;
    assert BaseStarts(v, [], 0 + n, mult, 0, total) == Some([]);
    assert [0] + [] == [0];
  }

  lemma StrideBound(dims: seq<nat>, c: nat)
    requires c <= |dims| && forall k :: 0 <= k < |dims| ==> dims[k] >= 1
    ensures Stride(dims, c) <= Prod(dims)
  {
    hide Prod;
    assert dims == dims[..c] + dims[c..];
    ProdConcat(dims[..c], dims[c..]);
    ProdPositive(dims[c..]);
    MulAtLeast(Stride(dims, c), Prod(dims[c..]));
  }

  lemma LinearSelects(dims: seq<nat>, subs: seq<Sub>)
    requires Handled(dims, subs) && BaseDim(dims, subs, 0) == |subs| < |dims|
    ensures Selection(dims, subs) == Range(0, Stride(dims, |subs| - 1) * dims[|subs| - 1])
  {
    hide Prod, Spread, Range, BaseDim;
    var last, eff := |subs| - 1, Effective(dims, |subs|);
    BaseDimMeans(dims, subs, 0);
    assert eff[..last] == dims[..last];
    FullBelow(eff, subs, last);
    SelectedStep(eff, subs, |subs|);
    SpreadAll(subs[last].indices, Stride(dims, last), dims[last]);
  }

  // A last subscript that stands for all of the merged dimensions: the recursion
  // visits the first of them only, and so finds too few starts.
  lemma MergedShort(dims: seq<nat>, subs: seq<Sub>)
    requires Handled(dims, subs) && BaseDim(dims, subs, 0) < |subs| && BaseDim(dims, subs, 0) < |dims| && !Unmerged(dims, subs)
    ensures |SliceLens(dims, subs)| > 0 && !Compact(dims, subs)
    ensures
      var w := ParsedStarts(dims, subs);
      w.Some? && |w.value| == NumStarts(dims, subs) ==> Expand(w.value, SliceLens(dims, subs)) != Selection(dims, subs)
  {
    hide Expand, RightStarts, Single, Runs, Prod, ParsedStarts, SliceLens, Selected, Lens, InRange, Room, BaseDim;
    var eff, base, c := Effective(dims, |subs|), BaseDim(dims, subs, 0), |subs| - 1;
    PartMeans(dims, subs);
    LensThere(eff, subs, base);
    LensLong(eff, subs, base);
    var lens := SliceLens(dims, subs);
    var k := RightSelects(eff, subs, c, base, 0);
    ShiftNone(Selected(eff, subs, |eff|));
    MergedRoom(dims, subs);
    var w := ParsedStarts(dims, subs);
    if w.Some? && |w.value| == NumStarts(dims, subs) {
      var g := RoomGrouped(dims, subs, |lens|, c, base);
      LessGroups(g, k, |lens|);
      ExpandShorter(w.value, g, RightStarts(eff, subs, c, base, 0), k, lens);
    }
  }

  lemma LessGroups(g: nat, k: nat, n: nat)
    requires g * n < k * n
    ensures g < k
  {
    if g >= k {
      MulOrder(k, g, n);
    }
  }

  lemma MergedRoom(dims: seq<nat>, subs: seq<Sub>)
    requires Handled(dims, subs) && BaseDim(dims, subs, 0) < |subs| && BaseDim(dims, subs, 0) < |dims| && !Unmerged(dims, subs)
    ensures
      var eff, base := Effective(dims, |subs|), BaseDim(dims, subs, 0);
      && base < |eff| == |subs| < |dims| && InRange(eff, subs) && subs[base].Idx?
      && NumStarts(dims, subs) < |RightStarts(eff, subs, |subs| - 1, base, 0)|
  {
    hide RightStarts, Runs, Prod, Lens, BaseDim, Room;
    var eff, base, c := Effective(dims, |subs|), BaseDim(dims, subs, 0), |subs| - 1;
    PartMeans(dims, subs);
    EffectiveFacts(dims, |subs|);
    LensThere(eff, subs, base);
    var n := |Lens(eff, subs, base)|;
    assert Agree(eff, eff, subs, base);
    RightRoom(eff, eff, subs, c, base, 0);
    RoomSame(dims, eff, subs, n, c - 1, base);
    RoomSome(dims, subs, n, c - 1, base);
    RoomNext(dims, subs, n, c, base);
    RoomNext(eff, subs, n, c, base);
    MergedMore(dims, c);
    MulMore(Room(dims, subs, n, c - 1, base), dims[c], eff[c]);
  }

  lemma MulMore(r: nat, a: nat, b: nat)
    requires r >= 1 && a < b
    ensures r * a < r * b
  {}

  lemma MergedMore(dims: seq<nat>, c: nat)
    requires c < |dims| && (forall k :: 0 <= k < |dims| ==> dims[k] >= 1) && Prod(dims[c..]) != dims[c]
    ensures Prod(dims[c..]) > dims[c]
  {
    ProdAtLeast(dims[c..], 0);
  }

  lemma {:induction false} RoomSame(dims: seq<nat>, eff: seq<nat>, subs: seq<Sub>, n: nat, c: nat, base: nat)
    requires c < |subs| && c < |dims| && c < |eff| && forall k :: 0 <= k <= c ==> dims[k] == eff[k]
    ensures Room(dims, subs, n, c, base) == Room(eff, subs, n, c, base)
  {
    if c > base {
      RoomSame(dims, eff, subs, n, c - 1, base);
    }
  }

  lemma {:induction false} RoomSome(dims: seq<nat>, subs: seq<Sub>, n: nat, c: nat, base: nat)
    requires n >= 1 && c < |subs| && (forall k :: 0 <= k < |dims| ==> dims[k] >= 1)
    requires forall k :: 0 <= k < |subs| && subs[k].Idx? ==> subs[k].indices != []
    ensures Room(dims, subs, n, c, base) >= 1
  {
    if c > base {
      RoomSome(dims, subs, n, c - 1, base);
      MulAtLeast(Room(dims, subs, n, c - 1, base), Choices(dims, subs, c));
    }
  }

  // Fewer groups of slices expand to fewer elements.
  lemma {:induction false} ExpandShorter(a: seq<nat>, g: nat, b: seq<nat>, k: nat, lens: seq<nat>)
    requires |lens| > 0 && (forall i :: 0 <= i < |lens| ==> lens[i] >= 1)
    requires |a| == g * |lens| && |b| == k * |lens| && g < k
    ensures |Expand(a, lens)| < |Expand(b, lens)|
    decreases g
  {
    var n := |lens|;
    assert k * n == (k - 1) * n + n && (k - 1) * n >= 0;
    if g == 0 {
      assert |Group(b[..n], lens)| >= lens[0];
    } else {
      assert g * n == (g - 1) * n + n && (g - 1) * n >= 0;
      GroupSize(a[..n], b[..n], lens);
      ExpandShorter(a[n..], g - 1, b[n..], k - 1, lens);
    }
  }

  lemma PartFilled(dims: seq<nat>, subs: seq<Sub>)
    requires Handled(dims, subs) && BaseDim(dims, subs, 0) < |subs| && BaseDim(dims, subs, 0) < |dims| && Unmerged(dims, subs)
    ensures |SliceLens(dims, subs)| > 0
    ensures
      var w := ParsedStarts(dims, subs);
      Compact(dims, subs) <==>
      w.Some? && |w.value| == NumStarts(dims, subs) && Expand(w.value, SliceLens(dims, subs)) == Selection(dims, subs)
  {
    hide Expand, RightStarts, Single, Runs, Prod, ParsedStarts, SliceLens, Selected, Compact, Agree, Lens, InRange, Room;
    var eff, base := Effective(dims, |subs|), BaseDim(dims, subs, 0);
    PartMeans(dims, subs);
    PartAgrees(dims, subs);
    PartStarts(dims, subs);
    LensThere(eff, subs, base);
    LensLong(eff, subs, base);
    var right := RightStarts(eff, subs, |eff| - 1, base, 0);
    var k := RightSelects(eff, subs, |eff| - 1, base, 0);
    ShiftNone(Selected(eff, subs, |eff|));
    RightRoom(dims, eff, subs, |eff| - 1, base, 0);
    if |subs| > |eff| {
      RoomPast(dims, subs, |SliceLens(dims, subs)|, |subs| - 1, base, |eff| - 1);
    }
    assert |right| == NumStarts(dims, subs);
    var w := ParsedStarts(dims, subs);
    if w.Some? && |w.value| == |right| && Expand(w.value, SliceLens(dims, subs)) == Selection(dims, subs) {
      ExpandInjective(w.value, right, k, SliceLens(dims, subs));
    }
  }

  // ----- nothing selected -----

  lemma {:induction false} HollowSelected(dims: seq<nat>, subs: seq<Sub>, c: nat, k: nat)
    requires InRange(dims, subs) && k < c <= |dims| && c <= |subs| && subs[k] == Idx([])
    ensures Selected(dims, subs, c) == []
    decreases c
  {
    hide Stride, Spread, InRange;
    var m := Stride(dims, c - 1);
    SelectedStep(dims, subs, c);
    if k < c - 1 {
      HollowSelected(dims, subs, c - 1, k);
      SpreadNothing(Picked(subs[c - 1], dims[c - 1]), m);
    } else {
      SpreadNone(m, Selected(dims, subs, c - 1));
    }
  }

  lemma SelectedStep(dims: seq<nat>, subs: seq<Sub>, c: nat)
    requires InRange(dims, subs) && 0 < c <= |dims| && c <= |subs|
    ensures
      var v := Picked(subs[c - 1], dims[c - 1]);
      && (forall i :: 0 <= i < |v| ==> v[i] >= 1)
      && Selected(dims, subs, c) == Spread(v, Stride(dims, c - 1), Selected(dims, subs, c - 1))
  {
    hide Stride, Spread;
  }

  lemma {:induction false} SpreadNothing(v: seq<nat>, stride: nat)
    requires forall i :: 0 <= i < |v| ==> v[i] >= 1
    ensures Spread(v, stride, []) == []
  {
    if v != [] {
      SpreadNothing(v[1..], stride);
      assert Shift([], (v[0] - 1) * stride) == [];
    }
  }

  lemma {:induction false} HollowStarts(dims: seq<nat>, subs: seq<Sub>, total: nat, lens: seq<nat>, c: nat, base: nat, k: nat, mult: nat, anchor: nat)
    requires Positive(dims, subs) && base <= k <= c < |subs| && k < |dims| && subs[k] == Idx([]) && subs[base].Idx?
    ensures WorkerStarts(dims, subs, total, lens, c, base, mult, anchor) == Some([])
    decreases c, 0
  {
    if c > base && c < |dims| {
      if k < c {
        HollowEach(dims, subs, total, lens, c, base, k, mult, anchor, Picked(subs[c], dims[c]));
      }
    } else if c > base {
      match subs[c]
      case All => HollowStarts(dims, subs, total, lens, c - 1, base, k, mult, anchor);
      case Idx(v) => HollowRepeat(dims, subs, total, lens, c, base, k, mult, anchor, |v|);
    }
  }

  lemma {:induction false} HollowEach(dims: seq<nat>, subs: seq<Sub>, total: nat, lens: seq<nat>, c: nat, base: nat, k: nat, mult: nat, anchor: nat, v: seq<nat>)
    requires Positive(dims, subs) && base <= k < c < |subs| && c < |dims| && subs[k] == Idx([]) && subs[base].Idx?
    requires forall i :: 0 <= i < |v| ==> v[i] >= 1
    ensures EachStarts(dims, subs, total, lens, c, base, mult, anchor, v) == Some([])
    decreases c - 1, 1, |v|
  {
    hide WorkerStarts;
    if v != [] {
      HollowStarts(dims, subs, total, lens, c - 1, base, k, mult / dims[c - 1], anchor + (v[0] - 1) * mult);
      HollowEach(dims, subs, total, lens, c, base, k, mult, anchor, v[1..]);
      PrefixedEmpty(Some([]));
    }
  }

  lemma {:induction false} HollowRepeat(dims: seq<nat>, subs: seq<Sub>, total: nat, lens: seq<nat>, c: nat, base: nat, k: nat, mult: nat, anchor: nat, n: nat)
    requires Positive(dims, subs) && base <= k < c < |subs| && k < |dims| && subs[k] == Idx([]) && subs[base].Idx?
    ensures RepeatStarts(dims, subs, total, lens, c, base, mult, anchor, n) == Some([])
    decreases c - 1, 1, n
  {
    hide WorkerStarts;
    if n > 0 {
      HollowStarts(dims, subs, total, lens, c - 1, base, k, mult, anchor);
      HollowRepeat(dims, subs, total, lens, c, base, k, mult, anchor, n - 1);
      PrefixedEmpty(Some([]));
    }
  }

  lemma {:induction false} HollowRoom(dims: seq<nat>, subs: seq<Sub>, n: nat, c: nat, base: nat, k: nat)
    requires base <= k <= c < |subs| && subs[k] == Idx([]) && (k == base ==> n == 0)
    ensures Room(dims, subs, n, c, base) == 0
    decreases c
  {
    if k < c {
      HollowRoom(dims, subs, n, c - 1, base, k);
    }
  }

  lemma NothingFilled(dims: seq<nat>, subs: seq<Sub>)
    requires Fit(dims, subs) && Hollow(subs)
    ensures ParsedStarts(dims, subs) == Some([]) && NumStarts(dims, subs) == 0 && Selection(dims, subs) == []
  {
    hide Room, Selected, WorkerStarts, Runs, Prod, Stride;
    var k :| 0 <= k < |subs| && subs[k] == Idx([]);
    var eff, base := Effective(dims, |subs|), BaseDim(dims, subs, 0);
    BaseDimMeans(dims, subs, 0);
    NoRuns([], 0);
    assert k < |eff| && base <= k;
    HollowSelected(eff, subs, |eff|, k);
    HollowRoom(dims, subs, |SliceLens(dims, subs)|, |subs| - 1, base, k);
    var top := if |subs| < |dims| then |subs| else |dims|;
    HollowStarts(dims, subs, Prod(dims), SliceLens(dims, subs), |subs| - 1, base, k, Stride(dims, top - 1), 0);
  }

  // The slots are filled and expand to the selection exactly when the subscripts
  // are compact or nothing is selected.
  lemma SlotsFilled(dims: seq<nat>, subs: seq<Sub>)
    requires Fit(dims, subs)
    ensures
      var w := ParsedStarts(dims, subs);
      Compact(dims, subs) || Hollow(subs) <==>
      w.Some? && |w.value| == NumStarts(dims, subs) && Expand(w.value, SliceLens(dims, subs)) == Selection(dims, subs)
  {
    hide Expand, ParsedStarts, SliceLens, Compact, Room, Selection, Fit;
    if Hollow(subs) {
      NothingFilled(dims, subs);
      ExpandNone(SliceLens(dims, subs));
    } else {
      NotHollow(dims, subs);
      SomeFilled(dims, subs);
    }
  }

  lemma NotHollow(dims: seq<nat>, subs: seq<Sub>)
    requires Fit(dims, subs) && !Hollow(subs)
    ensures Handled(dims, subs)
  {}

  lemma PrefixWhole(a: seq<nat>, b: seq<nat>)
    requires a <= b
    ensures |a| == |b| ==> a == b
  {}

  method ParseIndices(dims: seq<nat>, subs: seq<Sub>) returns (outcome: Outcome)
    requires Shaped(dims, subs)
    ensures outcome == NoSubscripts <==> |subs| == 0
    ensures outcome == TooFewDimensions <==> |subs| > 0 && |dims| < 2
    ensures |subs| > 0 && |dims| >= 2 ==>
      && (outcome == OutOfBounds <==> ParsedStarts(dims, subs) == None)
      && (outcome.Parsed? ==> outcome.lens == SliceLens(dims, subs) && ParsedStarts(dims, subs).value <= outcome.starts
                              && |outcome.starts| == NumStarts(dims, subs))
    // The slices select the right elements exactly for compact subscripts, or if
    // nothing is selected; otherwise an index is refused, a slot stays unwritten,
    // or they are wrong.
    ensures Fit(dims, subs) && (Compact(dims, subs) || Hollow(subs)) ==>
      outcome.Parsed? && Expand(outcome.starts, outcome.lens) == Selection(dims, subs)
    ensures Fit(dims, subs) && !Compact(dims, subs) && !Hollow(subs) ==>
      || outcome == OutOfBounds
      || |ParsedStarts(dims, subs).value| < |outcome.starts|
      || Expand(outcome.starts, outcome.lens) != Selection(dims, subs)
  {
    hide Runs, RunEnd, WorkerStarts, Room, Walkable, Stride, Prod, BaseDim, Expand, Compact, Selection, InRange;
    if |subs| < 1 {
      return NoSubscripts;
    }
    if |dims| < 2 {
      return TooFewDimensions;
    }
    var base, baseMult := FindBase(dims, subs);
    ShapedWalks(dims, subs);
    StrideAll(dims);
    var lens: array<nat>, numLens;
    if base < |dims| {
      lens, numLens := FindLens(subs[if base < |subs| then base else |subs| - 1].indices, baseMult);
    } else {
      lens, numLens := new nat[1], 1;
      lens[0] := Prod(dims);
      assert lens[..1] == [Prod(dims)];
    }
    ghost var used := lens[..numLens];
    assert used == SliceLens(dims, subs);
    var numIdxs := CountStarts(dims, subs, numLens, base);
    var starts := new nat[numIdxs];
    assert lens[..numLens] == used;
    var i, maxMult := 0, 1;
    while i < (if |subs| < |dims| then |subs| else |dims|) - 1
      invariant i <= (if |subs| < |dims| then |subs| else |dims|) - 1 && maxMult == Stride(dims, i) && lens[..numLens] == used
    {
      StrideNext(dims, i);
      i, maxMult := i + 1, maxMult * dims[i];
    }
    var ok, next := ParseIndicesWorker(dims, subs, Prod(dims), starts, lens, numLens, 0, |subs| - 1, base, maxMult, 0);
    if |subs| >= 1 && Fit(dims, subs) {
      SlotsFilled(dims, subs);
    }
    if !ok {
      return OutOfBounds;
    }
    assert [] + ParsedStarts(dims, subs).value == ParsedStarts(dims, subs).value;
    PrefixWhole(ParsedStarts(dims, subs).value, starts[..]);
    return Parsed(starts[..], lens[..numLens]);
  }
}
