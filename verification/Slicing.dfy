/** Subscripts of an array, the elements they select, and the slices they are
    compiled into. */
module Slicing {
  import opened Products

  // A subscript: everything along a dimension, or 1-based indices.
  datatype Sub = All | Idx(indices: seq<nat>)

  // The linear distance between neighbours along dimension `c`.
  function Stride(dims: seq<nat>, c: nat): nat
    requires c <= |dims|
  {
    Prod(dims[..c])
  }

  function Range(start: nat, len: nat): (r: seq<nat>)
    ensures |r| == len && forall i :: 0 <= i < len ==> r[i] == start + i
  {
    seq(len, i requires 0 <= i < len => start + i)
  }

  function Shift(c: seq<nat>, d: nat): (r: seq<nat>)
    ensures |r| == |c| && forall i :: 0 <= i < |c| ==> r[i] == c[i] + d
  {
    seq(|c|, i requires 0 <= i < |c| => c[i] + d)
  }

  // The indices a subscript stands for along a dimension of size `n`.
  function Picked(sub: Sub, n: nat): seq<nat> {
    match sub
    case All => Range(1, n)
    case Idx(v) => v
  }

  // ----- what is selected -----

  // One copy of `low` for each index in `v`, `stride` apart.
  function Spread(v: seq<nat>, stride: nat, low: seq<nat>): seq<nat>
    requires forall i :: 0 <= i < |v| ==> v[i] >= 1
  {
    if v == [] then [] else Shift(low, (v[0] - 1) * stride) + Spread(v[1..], stride, low)
  }

  ghost predicate InRange(dims: seq<nat>, subs: seq<Sub>) {
    && (forall c :: 0 <= c < |dims| ==> dims[c] >= 1)
    && (forall c, i :: 0 <= c < |dims| && c < |subs| && subs[c].Idx? && 0 <= i < |subs[c].indices| ==> 1 <= subs[c].indices[i] <= dims[c])
  }

  // The linear indices that the first `c` subscripts select, in column-major
  // order: the first dimension varies fastest.
  ghost function Selected(dims: seq<nat>, subs: seq<Sub>, c: nat): seq<nat>
    requires InRange(dims, subs) && c <= |dims| && c <= |subs|
  {
    if c == 0 then [0]
    else Spread(Picked(subs[c - 1], dims[c - 1]), Stride(dims, c - 1), Selected(dims, subs, c - 1))
  }

  // ----- what slices stand for -----

  // The slices that start at `starts`, with the lengths used in turn.
  function Group(starts: seq<nat>, lens: seq<nat>): seq<nat>
    requires |starts| == |lens|
  {
    if starts == [] then [] else Range(starts[0], lens[0]) + Group(starts[1..], lens[1..])
  }

  function Expand(starts: seq<nat>, lens: seq<nat>): seq<nat>
    decreases |starts|
  {
    if |lens| == 0 || |starts| < |lens| then []
    else Group(starts[..|lens|], lens) + Expand(starts[|lens|..], lens)
  }

  // Whole groups expand one after the other.
  lemma {:induction false} ExpandConcat(a: seq<nat>, k: nat, b: seq<nat>, lens: seq<nat>)
    requires |lens| > 0 && |a| == k * |lens|
    ensures Expand(a + b, lens) == Expand(a, lens) + Expand(b, lens)
    decreases k
  {
    hide Group;
    var n := |lens|;
    if k == 0 {
      assert a == [] && a + b == b;
    } else {
      assert k * n == (k - 1) * n + n;
      assert (k - 1) * n >= 0;
      assert (a + b)[..n] == a[..n] && (a + b)[n..] == a[n..] + b;
      ExpandConcat(a[n..], k - 1, b, lens);
    }
  }

  lemma ExpandGroup(starts: seq<nat>, lens: seq<nat>)
    requires |starts| == |lens| > 0
    ensures Expand(starts, lens) == Group(starts, lens)
  {
    hide Group;
    assert starts[..|lens|] == starts && starts[|lens|..] == [];
    assert Expand([], lens) == [];
  }

  // ----- runs of consecutive indices -----

  // The end of the run that starts at position `i`.
  function RunEnd(v: seq<nat>, i: nat): (e: nat)
    requires i < |v|
    ensures i < e <= |v|
    ensures forall k :: i <= k < e ==> v[k] == v[i] + (k - i)
    ensures e < |v| ==> v[e] != v[i] + (e - i)
    decreases |v| - i
  {
    if i + 1 < |v| && v[i + 1] == v[i] + 1 then RunEnd(v, i + 1) else i + 1
  }

  // The lengths of the maximal runs from position `i` on.
  function Runs(v: seq<nat>, i: nat): (lens: seq<nat>)
    requires i <= |v|
    ensures i < |v| ==> |lens| > 0
    decreases |v| - i
  {
    if i == |v| then [] else [RunEnd(v, i) - i] + Runs(v, RunEnd(v, i))
  }

  function Scaled(lens: seq<nat>, d: nat): (r: seq<nat>)
    ensures |r| == |lens| && forall i :: 0 <= i < |lens| ==> r[i] == lens[i] * d
  {
    seq(|lens|, i requires 0 <= i < |lens| => lens[i] * d)
  }

  // The start of each run.
  function RunStarts(v: seq<nat>, i: nat, mult: nat, anchor: nat): (starts: seq<nat>)
    requires i <= |v| && forall k :: 0 <= k < |v| ==> v[k] >= 1
    ensures |starts| == |Runs(v, i)|
    decreases |v| - i
  {
    if i == |v| then [] else [anchor + (v[i] - 1) * mult] + RunStarts(v, RunEnd(v, i), mult, anchor)
  }

  // A run of indices selects one contiguous slice.
  lemma {:induction false} SpreadRun(v: seq<nat>, mult: nat)
    requires v != [] && v[0] >= 1 && forall k :: 0 <= k < |v| ==> v[k] == v[0] + k
    ensures Spread(v, mult, Range(0, mult)) == Range((v[0] - 1) * mult, |v| * mult)
    decreases |v|
  {
    hide Spread, Shift, Range;
    var low, x, n := Range(0, mult), v[0] - 1, |v| - 1;
    SpreadHead(v, mult, low);
    ShiftRange(0, mult, x * mult);
    if n == 0 {
      assert v[1..] == [];
      SpreadNone(mult, low);
      assert Range(x * mult, mult) + [] == Range(x * mult, mult);
    } else {
      SpreadRun(v[1..], mult);
      MulSum(x, 1, mult);
      MulSum(1, n, mult);
      RangeSplit(x * mult, mult, n * mult);
    }
  }

  lemma SpreadHead(v: seq<nat>, stride: nat, low: seq<nat>)
    requires v != [] && forall i :: 0 <= i < |v| ==> v[i] >= 1
    ensures Spread(v, stride, low) == Shift(low, (v[0] - 1) * stride) + Spread(v[1..], stride, low)
  {}

  lemma MulSum(a: nat, b: nat, m: nat)
    ensures (a + b) * m == a * m + b * m
  {}

  lemma RangeSplit(start: nat, m: nat, n: nat)
    ensures Range(start, m + n) == Range(start, m) + Range(start + m, n)
  {}

  lemma {:induction false} SpreadConcat(a: seq<nat>, b: seq<nat>, stride: nat, low: seq<nat>)
    requires forall i :: 0 <= i < |a + b| ==> (a + b)[i] >= 1
    requires (forall i :: 0 <= i < |a| ==> a[i] >= 1) && (forall i :: 0 <= i < |b| ==> b[i] >= 1)
    ensures Spread(a + b, stride, low) == Spread(a, stride, low) + Spread(b, stride, low)
  {
    if a == [] {
      assert a + b == b;
    } else {
      assert (a + b)[1..] == a[1..] + b;
      SpreadConcat(a[1..], b, stride, low);
    }
  }

  // The slices of the runs are what the indices select along the base dimension.
  lemma {:induction false} RunsSelect(v: seq<nat>, i: nat, mult: nat, anchor: nat)
    requires i <= |v| && forall k :: 0 <= k < |v| ==> v[k] >= 1
    ensures Group(RunStarts(v, i, mult, anchor), Scaled(Runs(v, i), mult)) == Shift(Spread(v[i..], mult, Range(0, mult)), anchor)
    decreases |v| - i
  {
    hide RunEnd, Spread;
    if i < |v| {
      var e := RunEnd(v, i);
      RunsSelect(v, e, mult, anchor);
      RunSelects(v, i, e, mult, anchor);
      assert Scaled(Runs(v, i), mult)[1..] == Scaled(Runs(v, e), mult);
    } else {
      assert v[i..] == [];
      SpreadNone(mult, Range(0, mult));
      assert Shift([], anchor) == [];
    }
  }

  lemma SpreadNone(mult: nat, low: seq<nat>)
    ensures Spread([], mult, low) == []
  {}

  // One run, then the rest.
  lemma RunSelects(v: seq<nat>, i: nat, e: nat, mult: nat, anchor: nat)
    requires i < e <= |v| && forall k :: 0 <= k < |v| ==> v[k] >= 1
    requires forall k :: i <= k < e ==> v[k] == v[i] + (k - i)
    ensures Shift(Spread(v[i..], mult, Range(0, mult)), anchor) ==
      Range(anchor + (v[i] - 1) * mult, (e - i) * mult) + Shift(Spread(v[e..], mult, Range(0, mult)), anchor)
  {
    hide Spread;
    var run := v[i..e];
    var low := Range(0, mult);
    SpreadRun(run, mult);
    assert v[i..] == run + v[e..];
    SpreadConcat(run, v[e..], mult, low);
    var a, b := Spread(run, mult, low), Spread(v[e..], mult, low);
    ShiftConcat(a, b, anchor);
    ShiftRange((v[i] - 1) * mult, (e - i) * mult, anchor);
  }

  lemma ShiftConcat(a: seq<nat>, b: seq<nat>, d: nat)
    ensures Shift(a + b, d) == Shift(a, d) + Shift(b, d)
  {}

  lemma ShiftRange(start: nat, len: nat, d: nat)
    ensures Shift(Range(start, len), d) == Range(d + start, len)
  {}
}
