/** Compiling subscripts into slices: the base dimension up to which slices are
    contiguous, the slice lengths, and the recursion over the higher dimensions
    that finds where the slices start. */
module SliceParsing {
  import opened Options
  import opened Products
  import opened Slicing

  predicate IsFull(sub: Sub, n: nat) {
    sub.All? || (|sub.indices| == n && forall j :: 0 <= j < n ==> sub.indices[j] == j + 1)
  }

  // The first dimension along which the selection is not everything.
  function BaseDim(dims: seq<nat>, subs: seq<Sub>, c: nat): nat
    decreases |dims| - c
  {
    if c >= |dims| || c >= |subs| then c
    else if subs[c].All? then (if c + 1 == |subs| then |dims| else BaseDim(dims, subs, c + 1))
    else if IsFull(subs[c], dims[c]) then BaseDim(dims, subs, c + 1)
    else c
  }

  // ----- the recursion that finds the starts -----

  // With `lens` at hand, whether the walk over the base subscript finds a length
  // for each slice it comes to.
  predicate Enough(v: seq<nat>, lens: seq<nat>, i: nat)
    decreases |lens|
  {
    i < |v| ==> lens != [] && Enough(v, lens[1..], i + lens[0])
  }

  // The walk over the base subscript: it moves on by the length of the slice.
  // No result if a slice exceeds the array.
  function BaseStarts(v: seq<nat>, lens: seq<nat>, i: nat, mult: nat, anchor: nat, total: nat): Option<seq<nat>>
    requires forall k :: 0 <= k < |v| ==> v[k] >= 1
    decreases |lens|
  {
    if i >= |v| || lens == [] then Some([])
    else
      var start := anchor + (v[i] - 1) * mult;
      if total < start + lens[0] then None
      else Prefixed([start], BaseStarts(v, lens[1..], i + lens[0], mult, anchor, total))
  }

  function Prefixed(a: seq<nat>, b: Option<seq<nat>>): Option<seq<nat>> {
    match b
    case None => None
    case Some(r) => Some(a + r)
  }

  function Joined(a: Option<seq<nat>>, b: Option<seq<nat>>): Option<seq<nat>> {
    match a
    case None => None
    case Some(r) => Prefixed(r, b)
  }

  ghost predicate Positive(dims: seq<nat>, subs: seq<Sub>) {
    && (forall c :: 0 <= c < |dims| ==> dims[c] >= 1)
    && (forall c, i :: 0 <= c < |subs| && subs[c].Idx? && 0 <= i < |subs[c].indices| ==> subs[c].indices[i] >= 1)
  }

  // The starts found for dimensions up to `c`, from `anchor` on.
  ghost function WorkerStarts(dims: seq<nat>, subs: seq<Sub>, total: nat, lens: seq<nat>, c: nat, base: nat, mult: nat, anchor: nat): Option<seq<nat>>
    requires c < |subs| && Positive(dims, subs)
    decreases c, 0, 0
  {
    if c > base then
      if c < |dims| then EachStarts(dims, subs, total, lens, c, base, mult, anchor, Picked(subs[c], dims[c]))
      else
        match subs[c]
        case All => WorkerStarts(dims, subs, total, lens, c - 1, base, mult, anchor)
        case Idx(v) => RepeatStarts(dims, subs, total, lens, c, base, mult, anchor, |v|)
    else
      match subs[c]
      case All => if lens == [] then Some([]) else if total < anchor + lens[0] then None else Some([anchor])
      case Idx(v) => BaseStarts(v, lens, 0, mult, anchor, total)
  }

  // One recursion for each index in `v` along dimension `c`.
  ghost function EachStarts(dims: seq<nat>, subs: seq<Sub>, total: nat, lens: seq<nat>, c: nat, base: nat, mult: nat, anchor: nat, v: seq<nat>): Option<seq<nat>>
    requires base < c < |subs| && c < |dims| && Positive(dims, subs) && forall k :: 0 <= k < |v| ==> v[k] >= 1
    decreases c - 1, 1, |v|
  {
    if v == [] then Some([])
    else Joined(WorkerStarts(dims, subs, total, lens, c - 1, base, mult / dims[c - 1], anchor + (v[0] - 1) * mult),
                EachStarts(dims, subs, total, lens, c, base, mult, anchor, v[1..]))
  }

  ghost function RepeatStarts(dims: seq<nat>, subs: seq<Sub>, total: nat, lens: seq<nat>, c: nat, base: nat, mult: nat, anchor: nat, n: nat): Option<seq<nat>>
    requires base < c < |subs| && Positive(dims, subs)
    decreases c - 1, 1, n
  {
    if n == 0 then Some([])
    else Joined(WorkerStarts(dims, subs, total, lens, c - 1, base, mult, anchor),
                RepeatStarts(dims, subs, total, lens, c, base, mult, anchor, n - 1))
  }

  // ----- what the starts should be -----

  // The runs of the base subscript, for each choice of the higher indices.
  ghost function RightStarts(dims: seq<nat>, subs: seq<Sub>, c: nat, base: nat, anchor: nat): seq<nat>
    requires InRange(dims, subs) && base <= c < |dims| && c < |subs| && subs[base].Idx?
    decreases c, 0, 0
  {
    if c == base then RunStarts(subs[base].indices, 0, Stride(dims, base), anchor)
    else RightEach(dims, subs, c, base, anchor, Picked(subs[c], dims[c]))
  }

  ghost function RightEach(dims: seq<nat>, subs: seq<Sub>, c: nat, base: nat, anchor: nat, v: seq<nat>): seq<nat>
    requires InRange(dims, subs) && base < c < |dims| && c < |subs| && subs[base].Idx? && forall k :: 0 <= k < |v| ==> v[k] >= 1
    decreases c - 1, 1, |v|
  {
    if v == [] then []
    else RightStarts(dims, subs, c - 1, base, anchor + (v[0] - 1) * Stride(dims, c)) + RightEach(dims, subs, c, base, anchor, v[1..])
  }

  ghost function Lens(dims: seq<nat>, subs: seq<Sub>, base: nat): seq<nat>
    requires base < |dims| && base < |subs| && subs[base].Idx?
  {
    Scaled(Runs(subs[base].indices, 0), Stride(dims, base))
  }

  // ----- strides -----

  lemma StrideNext(dims: seq<nat>, c: nat)
    requires c < |dims|
    ensures Stride(dims, c + 1) == Stride(dims, c) * dims[c]
  {
    assert dims[..c + 1] == dims[..c] + [dims[c]];
    ProdConcat(dims[..c], [dims[c]]);
    assert Prod([dims[c]]) == dims[c] * Prod([dims[c]][1..]);
    assert Prod([]) == 1;
  }

  lemma StridePositive(dims: seq<nat>, c: nat)
    requires c <= |dims| && forall k :: 0 <= k < |dims| ==> dims[k] >= 1
    ensures Stride(dims, c) >= 1
  {
    ProdPositive(dims[..c]);
  }

  lemma StrideDiv(dims: seq<nat>, c: nat)
    requires 0 < c <= |dims| && forall k :: 0 <= k < |dims| ==> dims[k] >= 1
    ensures Stride(dims, c) / dims[c - 1] == Stride(dims, c - 1)
  {
    StrideNext(dims, c - 1);
    DivMul(Stride(dims, c - 1), dims[c - 1]);
  }

  lemma DivMul(a: nat, b: nat)
    requires b >= 1
    ensures a * b / b == a
  {
    Quotient(a, b, a * b / b, a * b % b);
  }

  lemma Quotient(a: int, b: int, q: int, r: int)
    requires a * b == b * q + r && 0 <= r < b
    ensures q == a
  {
    assert b * (a - q) == r;
    if a - q >= 1 {
      MulAtLeast(b, a - q);
    } else if q - a >= 1 {
      MulAtLeast(b, q - a);
    }
  }

  lemma MulAtLeast(a: int, b: int)
    requires a >= 0 && b >= 1
    ensures a * b >= a
  {}

  // ----- the right starts expand to the selection -----

  // Below the base dimension everything is selected.
  lemma {:induction false} FullBelow(dims: seq<nat>, subs: seq<Sub>, c: nat)
    requires InRange(dims, subs) && c <= |dims| && c <= |subs| && forall k :: 0 <= k < c ==> IsFull(subs[k], dims[k])
    ensures Selected(dims, subs, c) == Range(0, Stride(dims, c))
  {
    if c == 0 {
      assert dims[..0] == [];
    } else {
      hide Spread, Stride, Range, InRange;
      FullBelow(dims, subs, c - 1);
      FullPicks(dims, subs, c - 1);
      SpreadAll(Picked(subs[c - 1], dims[c - 1]), Stride(dims, c - 1), dims[c - 1]);
      StrideNext(dims, c - 1);
    }
  }

  lemma SpreadAll(v: seq<nat>, m: nat, n: nat)
    requires |v| == n >= 1 && forall k :: 0 <= k < |v| ==> v[k] == k + 1
    ensures Spread(v, m, Range(0, m)) == Range(0, m * n)
  {
    hide Spread, Range;
    SpreadRun(v, m);
    MulZero(m);
    assert |v| * m == m * n;
  }

  lemma MulZero(m: nat)
    ensures 0 * m == 0
  {}

  lemma FullPicks(dims: seq<nat>, subs: seq<Sub>, c: nat)
    requires InRange(dims, subs) && c < |dims| && c < |subs| && IsFull(subs[c], dims[c])
    ensures
      var v := Picked(subs[c], dims[c]);
      |v| == dims[c] >= 1 && forall k :: 0 <= k < |v| ==> v[k] == k + 1
  {}

  lemma ShiftNone(c: seq<nat>)
    ensures Shift(c, 0) == c
  {}

  lemma ShiftEmpty(d: nat)
    ensures Shift([], d) == []
  {}

  lemma LensSome(dims: seq<nat>, subs: seq<Sub>, base: nat)
    requires base < |dims| && base < |subs| && subs[base].Idx? && subs[base].indices != []
    ensures |Lens(dims, subs, base)| > 0
  {}

  lemma ShiftTwice(c: seq<nat>, a: nat, b: nat)
    ensures Shift(Shift(c, a), b) == Shift(c, a + b)
  {}

  lemma {:induction false} RightSelects(dims: seq<nat>, subs: seq<Sub>, c: nat, base: nat, anchor: nat) returns (k: nat)
    requires InRange(dims, subs) && base <= c < |dims| && c < |subs| && subs[base].Idx? && subs[base].indices != []
    requires forall j :: 0 <= j < base ==> IsFull(subs[j], dims[j])
    ensures |RightStarts(dims, subs, c, base, anchor)| == k * |Lens(dims, subs, base)|
    ensures Expand(RightStarts(dims, subs, c, base, anchor), Lens(dims, subs, base)) == Shift(Selected(dims, subs, c + 1), anchor)
    decreases c, 0, 0
  {
    hide Expand, Runs, RunStarts, Group, Spread, Stride, IsFull;
    if c == base {
      var v, m := subs[base].indices, Stride(dims, base);
      FullBelow(dims, subs, base);
      RunsSelect(v, 0, m, anchor);
      assert v[0..] == v;
      ExpandGroup(RunStarts(v, 0, m, anchor), Lens(dims, subs, base));
      k := 1;
    } else {
      k := RightEachSelects(dims, subs, c, base, anchor, Picked(subs[c], dims[c]));
    }
  }

  lemma {:induction false} RightEachSelects(dims: seq<nat>, subs: seq<Sub>, c: nat, base: nat, anchor: nat, v: seq<nat>) returns (k: nat)
    requires InRange(dims, subs) && base < c < |dims| && c < |subs| && subs[base].Idx? && subs[base].indices != []
    requires forall j :: 0 <= j < |v| ==> v[j] >= 1
    requires forall j :: 0 <= j < base ==> IsFull(subs[j], dims[j])
    ensures |RightEach(dims, subs, c, base, anchor, v)| == k * |Lens(dims, subs, base)|
    ensures Expand(RightEach(dims, subs, c, base, anchor, v), Lens(dims, subs, base))
      == Shift(Spread(v, Stride(dims, c), Selected(dims, subs, c)), anchor)
    decreases c - 1, 1, |v|
  {
    hide Runs, RunStarts, Group, Stride, IsFull, Selected, RightStarts, Expand, Spread, Shift, Lens;
    var lens, low := Lens(dims, subs, base), Selected(dims, subs, c);
    if v == [] {
      k := 0;
      LensSome(dims, subs, base);
      ExpandNone(lens);
      SpreadNone(Stride(dims, c), low);
      ShiftEmpty(anchor);
    } else {
      LensSome(dims, subs, base);
      var m := Stride(dims, c);
      var at := anchor + (v[0] - 1) * m;
      var k1 := RightSelects(dims, subs, c - 1, base, at);
      var k2 := RightEachSelects(dims, subs, c, base, anchor, v[1..]);
      SelectStep(RightStarts(dims, subs, c - 1, base, at), k1, RightEach(dims, subs, c, base, anchor, v[1..]), k2, lens, low, v, m, anchor);
      k := k1 + k2;
    }
  }

  // The starts for the first index, then those for the others.
  lemma SelectStep(a: seq<nat>, k1: nat, b: seq<nat>, k2: nat, lens: seq<nat>, low: seq<nat>, v: seq<nat>, m: nat, anchor: nat)
    requires |lens| > 0 && v != [] && |a| == k1 * |lens| && |b| == k2 * |lens| && forall j :: 0 <= j < |v| ==> v[j] >= 1
    requires Expand(a, lens) == Shift(low, anchor + (v[0] - 1) * m)
    requires Expand(b, lens) == Shift(Spread(v[1..], m, low), anchor)
    ensures |a + b| == (k1 + k2) * |lens| && Expand(a + b, lens) == Shift(Spread(v, m, low), anchor)
  {
    hide Expand, Spread, Shift;
    var d := (v[0] - 1) * m;
    SpreadHead(v, m, low);
    ExpandConcat(a, k1, b, lens);
    ShiftTwice(low, d, anchor);
    ShiftConcat(Shift(low, d), Spread(v[1..], m, low), anchor);
    MulSum(k1, k2, |lens|);
  }

  lemma ExpandNone(lens: seq<nat>)
    ensures Expand([], lens) == []
  {}

  // ----- what the recursion computes -----

  // Subscripts that are handled: `dims` are the dimensions of the array and
  // `eff` the dimensions the subscripts run over, with the last ones merged when
  // there are fewer subscripts than dimensions.
  function Effective(dims: seq<nat>, n: nat): (eff: seq<nat>)
    requires 1 <= n
    ensures |eff| == if n < |dims| then n else |dims|
  {
    if n < |dims| then dims[..n - 1] + [Prod(dims[n - 1..])] else dims
  }

  ghost predicate Fit(dims: seq<nat>, subs: seq<Sub>) {
    && |dims| >= 2 && |subs| >= 1 && Positive(dims, subs) && InRange(Effective(dims, |subs|), subs)
    && (forall c :: |dims| <= c < |subs| ==> subs[c].All? || subs[c].indices == [1])
  }

  // Some subscript selects nothing.
  ghost predicate Hollow(subs: seq<Sub>) {
    exists c :: 0 <= c < |subs| && subs[c] == Idx([])
  }

  ghost predicate Handled(dims: seq<nat>, subs: seq<Sub>) {
    Fit(dims, subs) && forall c :: 0 <= c < |subs| && subs[c].Idx? ==> subs[c].indices != []
  }

  // Slices longer than one element and more than one run do not go together:
  // the walk over the base subscript moves on by the scaled length of the slice.
  predicate Single(v: seq<nat>, mult: nat) {
    mult == 1 || |Runs(v, 0)| <= 1
  }

  // With unscaled lengths the walk comes to the start of each run.
  lemma {:induction false} UnitWalk(v: seq<nat>, p: nat, anchor: nat, total: nat, n: nat)
    requires p <= |v| && forall k :: 0 <= k < |v| ==> 1 <= v[k] <= n
    requires anchor + n <= total
    ensures BaseStarts(v, Scaled(Runs(v, p), 1), p, 1, anchor, total) == Some(RunStarts(v, p, 1, anchor))
    ensures Enough(v, Scaled(Runs(v, p), 1), p)
    decreases |v| - p
  {
    if p < |v| {
      var e := RunEnd(v, p);
      UnitWalk(v, e, anchor, total, n);
      var lens := Scaled(Runs(v, p), 1);
      assert lens[1..] == Scaled(Runs(v, e), 1);
      assert lens[0] == e - p;
      assert v[e - 1] == v[p] + (e - 1 - p);
    }
  }

  lemma {:induction false} NoRuns(v: seq<nat>, e: nat)
    requires e <= |v|
    ensures Runs(v, e) == [] <==> e == |v|
  {}

  lemma MulOrder(a: nat, b: nat, m: nat)
    requires a <= b
    ensures a * m <= b * m
  {}

  // A single run is one slice, whatever lies below.
  lemma SingleWalk(v: seq<nat>, mult: nat, anchor: nat, total: nat, n: nat)
    requires v != [] && |Runs(v, 0)| <= 1 && mult >= 1 && forall k :: 0 <= k < |v| ==> 1 <= v[k] <= n
    requires anchor + n * mult <= total
    ensures BaseStarts(v, Scaled(Runs(v, 0), mult), 0, mult, anchor, total) == Some(RunStarts(v, 0, mult, anchor))
    ensures Enough(v, Scaled(Runs(v, 0), mult), 0)
  {
    var e := RunEnd(v, 0);
    NoRuns(v, e);
    FirstRun(v, 0, mult, anchor);
    var lens := Scaled(Runs(v, 0), mult);
    assert e == |v| && lens[1..] == [];
    var last := v[|v| - 1];
    assert last == v[0] + (|v| - 1);
    MulSum(v[0] - 1, |v|, mult);
    MulOrder(last, n, mult);
    assert RunStarts(v, |v|, mult, anchor) == [];
  }

  // The first run, its scaled length, and the runs after it.
  lemma FirstRun(v: seq<nat>, p: nat, mult: nat, anchor: nat)
    requires p < |v| && mult >= 1 && forall k :: 0 <= k < |v| ==> v[k] >= 1
    ensures
      var e := RunEnd(v, p);
      var lens := Scaled(Runs(v, p), mult);
      && p < e <= |v| && lens != [] && lens[0] == (e - p) * mult >= e - p && lens[1..] == Scaled(Runs(v, e), mult)
      && RunStarts(v, p, mult, anchor) == [anchor + (v[p] - 1) * mult] + RunStarts(v, e, mult, anchor)
  {
    MulAtLeast(RunEnd(v, p) - p, mult);
  }

  // The walk always finds a length for its next slice, too far on as it may be.
  lemma {:induction false} WalkEnough(v: seq<nat>, p: nat, i: nat, mult: nat)
    requires p <= i && p <= |v| && mult >= 1 && forall k :: 0 <= k < |v| ==> v[k] >= 1
    ensures Enough(v, Scaled(Runs(v, p), mult), i)
    decreases |v| - p
  {
    hide RunEnd, Runs, RunStarts;
    if i < |v| {
      var e := RunEnd(v, p);
      var lens := Scaled(Runs(v, p), mult);
      FirstRun(v, p, mult, 0);
      WalkEnough(v, e, i + lens[0], mult);
    }
  }

  lemma InsideRun(v: seq<nat>, p: nat, i: nat, mult: nat)
    requires p < |v| && p < i < RunEnd(v, p) && mult >= 1 && v[p] >= 1
    ensures v[i] == v[p] + (i - p) && (v[i] - 1) * mult != (v[p] - 1) * mult
  {
    Farther(v[p] - 1, i - p, mult);
    assert v[i] - 1 == (v[p] - 1) + (i - p);
  }

  lemma Farther(a: nat, b: nat, m: nat)
    requires b >= 1 && m >= 1
    ensures (a + b) * m != a * m
  {
    MulSum(a, b, m);
    MulAtLeast(b, m);
  }

  // Once the walk is past the start of a run it never recovers: it ends too
  // early, or is inside the last run when it should be at its start.
  lemma {:induction false} WalkAstray(v: seq<nat>, p: nat, i: nat, mult: nat, anchor: nat, total: nat)
    requires p < i && p < |v| && mult >= 1 && forall k :: 0 <= k < |v| ==> v[k] >= 1
    ensures BaseStarts(v, Scaled(Runs(v, p), mult), i, mult, anchor, total) != Some(RunStarts(v, p, mult, anchor))
    decreases |v| - p
  {
    hide RunEnd, Runs, RunStarts;
    var e := RunEnd(v, p);
    var lens := Scaled(Runs(v, p), mult);
    FirstRun(v, p, mult, anchor);
    if i < |v| {
      var start := anchor + (v[i] - 1) * mult;
      var rest := BaseStarts(v, lens[1..], i + lens[0], mult, anchor, total);
      if total >= start + lens[0] && rest.Some? {
        assert ([start] + rest.value)[1..] == rest.value;
        if e == |v| {
          InsideRun(v, p, i, mult);
        } else {
          WalkAstray(v, e, i + lens[0], mult, anchor, total);
        }
      }
    }
  }

  // The walk finds the starts of the runs exactly when slices are single
  // elements or there is a single run.
  lemma WalkExact(v: seq<nat>, mult: nat, anchor: nat, total: nat, n: nat)
    requires v != [] && mult >= 1 && forall k :: 0 <= k < |v| ==> 1 <= v[k] <= n
    requires anchor + n * mult <= total
    ensures BaseStarts(v, Scaled(Runs(v, 0), mult), 0, mult, anchor, total) == Some(RunStarts(v, 0, mult, anchor)) <==> Single(v, mult)
  {
    if mult == 1 {
      UnitWalk(v, 0, anchor, total, n);
    } else if |Runs(v, 0)| <= 1 {
      SingleWalk(v, mult, anchor, total, n);
    } else {
      SecondRun(v, mult, anchor, total);
    }
  }

  lemma SecondRun(v: seq<nat>, mult: nat, anchor: nat, total: nat)
    requires v != [] && mult >= 2 && |Runs(v, 0)| > 1 && forall k :: 0 <= k < |v| ==> v[k] >= 1
    ensures BaseStarts(v, Scaled(Runs(v, 0), mult), 0, mult, anchor, total) != Some(RunStarts(v, 0, mult, anchor))
  {
    var e := RunEnd(v, 0);
    var lens := Scaled(Runs(v, 0), mult);
    NoRuns(v, e);
    FirstRun(v, 0, mult, anchor);
    hide Runs, RunStarts, RunEnd;
    MulAtLeast2(e, mult);
    WalkAstray(v, e, lens[0], mult, anchor, total);
    var start := anchor + (v[0] - 1) * mult;
    var rest := BaseStarts(v, lens[1..], lens[0], mult, anchor, total);
    if rest.Some? {
      assert ([start] + rest.value)[1..] == rest.value;
      assert ([start] + RunStarts(v, e, mult, anchor))[1..] == RunStarts(v, e, mult, anchor);
    }
  }

  lemma MulAtLeast2(a: nat, b: nat)
    requires a >= 1 && b >= 2
    ensures a * b > a
  {}

  // ----- the recursion against the right starts -----

  lemma PrefixedNone(a: seq<nat>, b: Option<seq<nat>>)
    ensures Joined(Some([]), b) == b
    ensures Joined(Some(a), Some([])) == Some(a)
  {
    if b.Some? {
      assert [] + b.value == b.value;
    }
    assert a + [] == a;
  }

  lemma {:induction false} BaseShort(v: seq<nat>, lens: seq<nat>, i: nat, mult: nat, anchor: nat, total: nat)
    requires forall k :: 0 <= k < |v| ==> v[k] >= 1
    ensures BaseStarts(v, lens, i, mult, anchor, total).Some? ==> |BaseStarts(v, lens, i, mult, anchor, total).value| <= |lens|
    decreases |lens|
  {
    if i < |v| && lens != [] {
      BaseShort(v, lens[1..], i + lens[0], mult, anchor, total);
    }
  }

  // The dimensions the recursion reads agree with the effective ones.
  ghost predicate Agree(dims: seq<nat>, eff: seq<nat>, subs: seq<Sub>, base: nat) {
    && |eff| <= |dims| && |eff| <= |subs| && Positive(dims, subs) && InRange(eff, subs)
    && (forall k :: 0 <= k < |eff| - 1 ==> dims[k] == eff[k])
    && (forall k :: base < k < |eff| && subs[k].All? ==> dims[k] == eff[k])
    && (forall k :: 0 <= k < |subs| && subs[k].Idx? ==> subs[k].indices != [])
    && base < |eff| && subs[base].Idx?
  }

  lemma PickedFine(eff: seq<nat>, subs: seq<Sub>, c: nat)
    requires InRange(eff, subs) && c < |eff| && c < |subs| && (subs[c].Idx? ==> subs[c].indices != [])
    ensures Picked(subs[c], eff[c]) != [] && forall k :: 0 <= k < |Picked(subs[c], eff[c])| ==> 1 <= Picked(subs[c], eff[c])[k] <= eff[c]
  {}

  // Up to the base dimension and above it, the recursion finds the right starts
  // exactly when the walk over the base subscript does.
  lemma {:induction false} WorkerExact(dims: seq<nat>, eff: seq<nat>, subs: seq<Sub>, total: nat, c: nat, base: nat, anchor: nat)
    requires Agree(dims, eff, subs, base) && base <= c < |eff| && anchor + Stride(eff, c + 1) <= total
    ensures
      var w := WorkerStarts(dims, subs, total, Lens(eff, subs, base), c, base, Stride(eff, c), anchor);
      var right := RightStarts(eff, subs, c, base, anchor);
      && (w.Some? ==> |w.value| <= |right|)
      && (w == Some(right) <==> Single(subs[base].indices, Stride(eff, base)))
    decreases c, 0, 0
  {
    hide Stride, Runs, RunStarts, Single, InRange;
    PickedFine(eff, subs, c);
    if c == base {
      StridePositive2(eff, subs, base);
      StrideNext(eff, base);
      var v, m := subs[base].indices, Stride(eff, base);
      assert eff[base] * m == m * eff[base];
      WalkExact(v, m, anchor, total, eff[base]);
      BaseShort(v, Lens(eff, subs, base), 0, m, anchor, total);
    } else {
      EachExact(dims, eff, subs, total, c, base, anchor, Picked(subs[c], eff[c]));
    }
  }

  lemma StridePositive2(eff: seq<nat>, subs: seq<Sub>, c: nat)
    requires InRange(eff, subs) && c <= |eff|
    ensures Stride(eff, c) >= 1
  {
    StridePositive(eff, c);
  }

  lemma {:induction false} EachExact(dims: seq<nat>, eff: seq<nat>, subs: seq<Sub>, total: nat, c: nat, base: nat, anchor: nat, v: seq<nat>)
    requires Agree(dims, eff, subs, base) && base < c < |eff| && anchor + Stride(eff, c + 1) <= total
    requires forall k :: 0 <= k < |v| ==> 1 <= v[k] <= eff[c]
    ensures
      var w := EachStarts(dims, subs, total, Lens(eff, subs, base), c, base, Stride(eff, c), anchor, v);
      var right := RightEach(eff, subs, c, base, anchor, v);
      && (w.Some? ==> |w.value| <= |right|)
      && (w == Some(right) <==> v == [] || Single(subs[base].indices, Stride(eff, base)))
    decreases c - 1, 1, |v|
  {
    hide Stride, Runs, RunStarts, Single, InRange, WorkerStarts, RightStarts, Lens, EachStarts, Agree;
    AgreeBounds(dims, eff, subs, base);
    if v == [] {
      EachNone(dims, subs, total, Lens(eff, subs, base), c, base, Stride(eff, c), anchor);
    } else {
      var lens, m := Lens(eff, subs, base), Stride(eff, c);
      var at := anchor + (v[0] - 1) * m;
      EachSplit(dims, eff, subs, total, lens, c, base, anchor, v);
      EachFits(eff, c, v[0], anchor, total);
      WorkerExact(dims, eff, subs, total, c - 1, base, at);
      EachExact(dims, eff, subs, total, c, base, anchor, v[1..]);
      var a := WorkerStarts(dims, subs, total, lens, c - 1, base, Stride(eff, c - 1), at);
      var b := EachStarts(dims, subs, total, lens, c, base, m, anchor, v[1..]);
      JoinExact(a, b, RightStarts(eff, subs, c - 1, base, at), RightEach(eff, subs, c, base, anchor, v[1..]));
    }
  }

  lemma EachNone(dims: seq<nat>, subs: seq<Sub>, total: nat, lens: seq<nat>, c: nat, base: nat, mult: nat, anchor: nat)
    requires base < c < |subs| && c < |dims| && Positive(dims, subs)
    ensures EachStarts(dims, subs, total, lens, c, base, mult, anchor, []) == Some([])
  {}

  lemma AgreeBounds(dims: seq<nat>, eff: seq<nat>, subs: seq<Sub>, base: nat)
    requires Agree(dims, eff, subs, base)
    ensures |eff| <= |dims| && |eff| <= |subs| && Positive(dims, subs) && InRange(eff, subs) && base < |eff| && subs[base].Idx?
  {}

  // The recursion for the first index, then for the others.
  lemma EachSplit(dims: seq<nat>, eff: seq<nat>, subs: seq<Sub>, total: nat, lens: seq<nat>, c: nat, base: nat, anchor: nat, v: seq<nat>)
    requires Agree(dims, eff, subs, base) && base < c < |eff| && v != [] && forall k :: 0 <= k < |v| ==> v[k] >= 1
    ensures EachStarts(dims, subs, total, lens, c, base, Stride(eff, c), anchor, v)
      == Joined(WorkerStarts(dims, subs, total, lens, c - 1, base, Stride(eff, c - 1), anchor + (v[0] - 1) * Stride(eff, c)),
                EachStarts(dims, subs, total, lens, c, base, Stride(eff, c), anchor, v[1..]))
  {
    hide Stride, WorkerStarts;
    StrideDown(eff, subs, c);
    assert dims[c - 1] == eff[c - 1];
  }

  lemma EachFits(eff: seq<nat>, c: nat, x: nat, anchor: nat, total: nat)
    requires c < |eff| && 1 <= x <= eff[c] && anchor + Stride(eff, c + 1) <= total
    ensures anchor + (x - 1) * Stride(eff, c) + Stride(eff, c) <= total
  {
    StrideNext(eff, c);
    RowFits(x, eff[c], Stride(eff, c));
  }

  lemma StrideDown(eff: seq<nat>, subs: seq<Sub>, c: nat)
    requires InRange(eff, subs) && 0 < c <= |eff|
    ensures Stride(eff, c) / eff[c - 1] == Stride(eff, c - 1)
  {
    StrideDiv(eff, c);
  }

  lemma RowFits(x: nat, n: nat, m: nat)
    requires 1 <= x <= n
    ensures (x - 1) * m + m <= m * n
  {
    MulOrder(x, n, m);
    assert (x - 1) * m + m == x * m;
  }

  // Two parts, neither too long, make the right whole exactly when each is right.
  lemma JoinExact(a: Option<seq<nat>>, b: Option<seq<nat>>, ra: seq<nat>, rb: seq<nat>)
    requires (a.Some? ==> |a.value| <= |ra|) && (b.Some? ==> |b.value| <= |rb|)
    ensures Joined(a, b).Some? ==> |Joined(a, b).value| <= |ra + rb|
    ensures Joined(a, b) == Some(ra + rb) <==> a == Some(ra) && b == Some(rb)
  {
    if a.Some? && b.Some? && a.value + b.value == ra + rb {
      assert |a.value| == |ra|;
      assert a.value == (a.value + b.value)[..|ra|] && b.value == (a.value + b.value)[|ra|..];
      assert ra == (ra + rb)[..|ra|] && rb == (ra + rb)[|ra|..];
    }
  }

  // Subscripts past the last dimension change nothing.
  lemma {:induction false} ExtrasPass(dims: seq<nat>, subs: seq<Sub>, total: nat, lens: seq<nat>, c: nat, base: nat, mult: nat, anchor: nat, floor: nat)
    requires Positive(dims, subs) && c < |subs| && floor <= c && base <= floor && |dims| <= floor + 1
    requires forall k :: |dims| <= k < |subs| ==> subs[k].All? || subs[k].indices == [1]
    ensures WorkerStarts(dims, subs, total, lens, c, base, mult, anchor) == WorkerStarts(dims, subs, total, lens, floor, base, mult, anchor)
    decreases c
  {
    if c > floor {
      ExtrasPass(dims, subs, total, lens, c - 1, base, mult, anchor, floor);
      if subs[c].Idx? {
        var w := WorkerStarts(dims, subs, total, lens, c - 1, base, mult, anchor);
        assert RepeatStarts(dims, subs, total, lens, c, base, mult, anchor, 0) == Some([]);
        if w.Some? {
          PrefixedNone(w.value, None);
        }
      }
    }
  }
}
