/** When the compiled slices stand for exactly the selected elements. */
module SliceTheorems {
  import opened Options
  import opened Products
  import opened Slicing
  import opened SliceParsing

  lemma {:induction false} BaseDimMeans(dims: seq<nat>, subs: seq<Sub>, c: nat)
    requires c <= |dims| && c <= |subs| && forall k :: 0 <= k < c ==> IsFull(subs[k], dims[k])
    ensures
      var b := BaseDim(dims, subs, c);
      && c <= b <= |dims| && (b < |dims| ==> b <= |subs|)
      && (b < |dims| && b < |subs| ==> subs[b].Idx?)
      && (forall k :: 0 <= k < b && k < |subs| ==> IsFull(subs[k], dims[k]))
      && (b > |subs| ==> |subs| > 0 && subs[|subs| - 1].All?)
      && (b == |subs| < |dims| && |subs| > 0 ==> subs[|subs| - 1].Idx? || c == |subs|)
    decreases |dims| - c
  {
    if c < |dims| && c < |subs| {
      if subs[c].All? && c + 1 == |subs| {
      } else if IsFull(subs[c], dims[c]) {
        BaseDimMeans(dims, subs, c + 1);
      }
    }
  }

  // The slice lengths the parser computes.
  ghost function SliceLens(dims: seq<nat>, subs: seq<Sub>): seq<nat>
    requires |subs| >= 1
  {
    var base := BaseDim(dims, subs, 0);
    var last := if base < |subs| then base else |subs| - 1;
    if base >= |dims| then [Prod(dims)]
    else if subs[last].Idx? then Scaled(Runs(subs[last].indices, 0), Stride(dims, base))
    else []
  }

  // The starts it finds.
  ghost function ParsedStarts(dims: seq<nat>, subs: seq<Sub>): Option<seq<nat>>
    requires |subs| >= 1 && |dims| >= 1 && Positive(dims, subs)
  {
    var top := if |subs| < |dims| then |subs| else |dims|;
    WorkerStarts(dims, subs, Prod(dims), SliceLens(dims, subs), |subs| - 1, BaseDim(dims, subs, 0), Stride(dims, top - 1), 0)
  }

  // One slice for everything, or single-element slices, or a single run.  With fewer
  // subscripts than dimensions, the last one runs over the merged dimensions: the
  // code takes it for one over the first of them, so what it selects there must be
  // the same.
  ghost predicate Compact(dims: seq<nat>, subs: seq<Sub>)
    requires |subs| >= 1
  {
    var base, last := BaseDim(dims, subs, 0), |subs| - 1;
    if base >= |dims| then true
    else if base >= |subs| then dims[last] == 1
    else
      && subs[base].Idx? && Single(subs[base].indices, Stride(dims, base))
      && (|subs| < |dims| && subs[last].All? ==> Prod(dims[last..]) == dims[last])
  }

  // The elements selected, in column-major order.
  ghost function Selection(dims: seq<nat>, subs: seq<Sub>): seq<nat>
    requires |subs| >= 1 && InRange(Effective(dims, |subs|), subs)
  {
    var eff := Effective(dims, |subs|);
    Selected(eff, subs, |eff|)
  }

  // ----- everything selected -----

  lemma EffectiveFacts(dims: seq<nat>, n: nat)
    requires |dims| >= 1 && n >= 1
    ensures
      var eff := Effective(dims, n);
      && |eff| >= 1 && Prod(eff) == Prod(dims)
      && (forall k :: 0 <= k < |eff| - 1 ==> eff[k] == dims[k])
      && (n >= |dims| ==> eff == dims)
      && Stride(eff, |eff|) == Prod(dims)
  {
    var eff := Effective(dims, n);
    assert eff[..|eff|] == eff;
    if n < |dims| {
      var a, b := dims[..n - 1], dims[n - 1..];
      assert dims == a + b;
      ProdConcat(a, b);
      ProdConcat(a, [Prod(b)]);
      assert Prod([Prod(b)]) == Prod(b) * Prod([Prod(b)][1..]);
      assert Prod([]) == 1;
    }
  }

  lemma WholeStarts(dims: seq<nat>, subs: seq<Sub>)
    requires Handled(dims, subs) && BaseDim(dims, subs, 0) == |dims|
    ensures ParsedStarts(dims, subs) == Some([0]) && SliceLens(dims, subs) == [Prod(dims)]
  {
    hide Prod, Effective, InRange;
    BaseDimMeans(dims, subs, 0);
    var total, lens := Prod(dims), SliceLens(dims, subs);
    var top := if |subs| < |dims| then |subs| else |dims|;
    var m := Stride(dims, top - 1);
    assert lens[1..] == [];
    ProdPositive(dims);
    var floor := if |subs| - 1 < |dims| then |subs| - 1 else |dims|;
    if floor == |dims| {
      ExtrasPass(dims, subs, total, lens, |subs| - 1, |dims|, m, 0, floor);
    }
    if subs[floor].Idx? {
      var v := subs[floor].indices;
      assert v[0] == 1;
      assert (v[0] - 1) * m == 0;
      assert BaseStarts(v, [], 0 + lens[0], m, 0, total) == Some([]);
      assert [0] + [] == [0];
    }
  }

  lemma WholeSelected(dims: seq<nat>, subs: seq<Sub>)
    requires Handled(dims, subs) && BaseDim(dims, subs, 0) == |dims|
    ensures Selection(dims, subs) == Range(0, Prod(dims))
  {
    hide Prod, Selected;
    var eff := Effective(dims, |subs|);
    BaseDimMeans(dims, subs, 0);
    EffectiveFacts(dims, |subs|);
    forall k | 0 <= k < |eff| ensures IsFull(subs[k], eff[k]) {
      assert k < |subs|;
      if k == |eff| - 1 && |subs| < |dims| {
        assert subs[k].All?;
      } else {
        assert IsFull(subs[k], dims[k]);
      }
    }
    FullBelow(eff, subs, |eff|);
  }

  lemma WholeExpands(total: nat)
    ensures Expand([0], [total]) == Range(0, total)
  {
    ExpandGroup([0], [total]);
    assert [0][1..] == [] && [total][1..] == [];
    assert Group([], []) == [];
    assert Range(0, total) + [] == Range(0, total);
  }

  // ----- a base dimension -----

  // The last subscript selects as much along its dimension as along the merged ones.
  ghost predicate Unmerged(dims: seq<nat>, subs: seq<Sub>) {
    0 < |subs| < |dims| && subs[|subs| - 1].All? ==> Prod(dims[|subs| - 1..]) == dims[|subs| - 1]
  }

  // Below its last dimension, what the recursion reads agrees with what is selected.
  lemma PartMeans(dims: seq<nat>, subs: seq<Sub>)
    requires Handled(dims, subs) && BaseDim(dims, subs, 0) < |dims| && BaseDim(dims, subs, 0) < |subs|
    ensures
      var eff, base := Effective(dims, |subs|), BaseDim(dims, subs, 0);
      && base < |eff| <= |dims| && |eff| <= |subs| && subs[base].Idx? && subs[base].indices != [] && InRange(eff, subs)
      && Lens(eff, subs, base) == SliceLens(dims, subs)
      && Stride(eff, base) == Stride(dims, base) && Stride(eff, |eff| - 1) == Stride(dims, |eff| - 1)
      && forall j :: 0 <= j < base ==> IsFull(subs[j], eff[j])
  {
    hide Prod, IsFull, Runs, BaseDim, Effective;
    var eff, base := Effective(dims, |subs|), BaseDim(dims, subs, 0);
    BaseDimMeans(dims, subs, 0);
    EffectiveFacts(dims, |subs|);
    assert base < |eff|;
    assert eff[..base] == dims[..base];
    assert eff[..|eff| - 1] == dims[..|eff| - 1];
  }

  lemma PartAgrees(dims: seq<nat>, subs: seq<Sub>)
    requires Handled(dims, subs) && BaseDim(dims, subs, 0) < |dims| && BaseDim(dims, subs, 0) < |subs| && Unmerged(dims, subs)
    ensures Agree(dims, Effective(dims, |subs|), subs, BaseDim(dims, subs, 0))
  {
    hide Prod, IsFull, Runs, BaseDim, Effective, InRange, Lens, SliceLens, Handled, Positive, Stride;
    var eff, base := Effective(dims, |subs|), BaseDim(dims, subs, 0);
    PartMeans(dims, subs);
    HandledMeans(dims, subs);
    EffectiveFacts(dims, |subs|);
    EffectiveLast(dims, |subs|);
  }

  lemma HandledMeans(dims: seq<nat>, subs: seq<Sub>)
    requires Handled(dims, subs)
    ensures |dims| >= 2 && |subs| >= 1 && Positive(dims, subs)
    ensures forall c :: 0 <= c < |subs| && subs[c].Idx? ==> subs[c].indices != []
  {}

  lemma EffectiveLast(dims: seq<nat>, n: nat)
    requires 1 <= n
    ensures n < |dims| ==> Effective(dims, n)[n - 1] == Prod(dims[n - 1..])
  {}

  lemma PartStarts(dims: seq<nat>, subs: seq<Sub>)
    requires Handled(dims, subs) && BaseDim(dims, subs, 0) < |dims| && BaseDim(dims, subs, 0) < |subs| && Unmerged(dims, subs)
    requires Agree(dims, Effective(dims, |subs|), subs, BaseDim(dims, subs, 0))
    ensures
      var eff, base := Effective(dims, |subs|), BaseDim(dims, subs, 0);
      ParsedStarts(dims, subs) == Some(RightStarts(eff, subs, |eff| - 1, base, 0)) <==> Compact(dims, subs)
  {
    hide Prod, RightStarts, Single, Runs, Agree, InRange, WorkerStarts, SliceLens, Lens, Stride;
    var eff, base := Effective(dims, |subs|), BaseDim(dims, subs, 0);
    PartMeans(dims, subs);
    EffectiveFacts(dims, |subs|);
    AgreeMeans(dims, eff, subs, base);
    WorkerExact(dims, eff, subs, Prod(dims), |eff| - 1, base, 0);
    if |subs| > |eff| {
      ExtrasPass(dims, subs, Prod(dims), SliceLens(dims, subs), |subs| - 1, base, Stride(dims, |eff| - 1), 0, |eff| - 1);
    }
  }

  lemma AgreeMeans(dims: seq<nat>, eff: seq<nat>, subs: seq<Sub>, base: nat)
    requires Agree(dims, eff, subs, base)
    ensures InRange(eff, subs) && base < |eff| <= |subs| && |eff| <= |dims| && subs[base].Idx? && subs[base].indices != []
  {}

  // ----- slices against elements -----

  lemma LensThere(eff: seq<nat>, subs: seq<Sub>, base: nat)
    requires base < |eff| && base < |subs| && subs[base].Idx? && subs[base].indices != []
    ensures |Lens(eff, subs, base)| > 0
  {}

  // Slices of positive length that expand alike start alike.
  lemma {:induction false} GroupInjective(a: seq<nat>, b: seq<nat>, lens: seq<nat>)
    requires |a| == |b| == |lens| && (forall k :: 0 <= k < |lens| ==> lens[k] >= 1) && Group(a, lens) == Group(b, lens)
    ensures a == b
  {
    if a != [] {
      var x, y := Group(a[1..], lens[1..]), Group(b[1..], lens[1..]);
      var n := lens[0];
      assert (Range(a[0], n) + x)[0] == a[0] && (Range(b[0], n) + y)[0] == b[0];
      assert (Range(a[0], n) + x)[n..] == x && (Range(b[0], n) + y)[n..] == y;
      GroupInjective(a[1..], b[1..], lens[1..]);
      assert a == [a[0]] + a[1..] && b == [b[0]] + b[1..];
    }
  }

  lemma {:induction false} GroupSize(a: seq<nat>, b: seq<nat>, lens: seq<nat>)
    requires |a| == |b| == |lens|
    ensures |Group(a, lens)| == |Group(b, lens)|
  {
    if a != [] {
      GroupSize(a[1..], b[1..], lens[1..]);
    }
  }

  lemma {:induction false} ExpandInjective(a: seq<nat>, b: seq<nat>, k: nat, lens: seq<nat>)
    requires |lens| > 0 && |a| == |b| == k * |lens| && (forall i :: 0 <= i < |lens| ==> lens[i] >= 1) && Expand(a, lens) == Expand(b, lens)
    ensures a == b
    decreases k
  {
    var n := |lens|;
    if k > 0 {
      assert k * n == (k - 1) * n + n;
      MulOrder(0, k - 1, n);
      var g, h := Group(a[..n], lens), Group(b[..n], lens);
      GroupSize(a[..n], b[..n], lens);
      assert (g + Expand(a[n..], lens))[..|g|] == g && (h + Expand(b[n..], lens))[..|g|] == h;
      assert (g + Expand(a[n..], lens))[|g|..] == Expand(a[n..], lens) && (h + Expand(b[n..], lens))[|g|..] == Expand(b[n..], lens);
      GroupInjective(a[..n], b[..n], lens);
      ExpandInjective(a[n..], b[n..], k - 1, lens);
      assert a == a[..n] + a[n..] && b == b[..n] + b[n..];
    }
  }

  lemma {:induction false} RunsLong(v: seq<nat>, i: nat)
    requires i <= |v|
    ensures forall k :: 0 <= k < |Runs(v, i)| ==> Runs(v, i)[k] >= 1
    decreases |v| - i
  {
    if i < |v| {
      RunsLong(v, RunEnd(v, i));
    }
  }

  lemma ScaledLong(lens: seq<nat>, d: nat)
    requires d >= 1 && forall k :: 0 <= k < |lens| ==> lens[k] >= 1
    ensures forall k :: 0 <= k < |lens| ==> Scaled(lens, d)[k] >= 1
  {
    forall k | 0 <= k < |lens| ensures lens[k] * d >= 1 {
      MulAtLeast(lens[k], d);
    }
  }

  lemma LensLong(eff: seq<nat>, subs: seq<Sub>, base: nat)
    requires InRange(eff, subs) && base < |eff| && base < |subs| && subs[base].Idx?
    ensures forall k :: 0 <= k < |Lens(eff, subs, base)| ==> Lens(eff, subs, base)[k] >= 1
  {
    hide Stride, Runs;
    RunsLong(subs[base].indices, 0);
    StridePositive(eff, base);
    ScaledLong(Runs(subs[base].indices, 0), Stride(eff, base));
  }

  // In a 2-by-5 array, the columns 1, 3 and 4: the second slice should start at
  // element 4; the walk comes to element 6 instead.
  lemma AstrayExample()
    ensures
      var dims, subs := [2, 5], [All, Idx([1, 3, 4])];
      && Handled(dims, subs) && !Compact(dims, subs)
      && SliceLens(dims, subs) == [2, 4]
      && ParsedStarts(dims, subs) == Some([0, 6])
      && Selection(dims, subs) == [0, 1, 4, 5, 6, 7]
  {
    hide Runs, BaseStarts, Prod, Selected, BaseDim;
    var dims, subs := [2, 5], [All, Idx([1, 3, 4])];
    ExampleBase();
    ExampleRuns();
    ExampleSizes();
    ExampleWalk();
    assert Scaled([1, 2], 2) == [2, 4];
    ExampleSelection();
  }

  lemma ExampleSizes()
    ensures Prod([2, 5]) == 10 && Stride([2, 5], 1) == 2
  {
    assert Prod([2]) == 2 * Prod([2][1..]) && Prod([5]) == 5 * Prod([5][1..]) && Prod([]) == 1;
    assert [2, 5][..1] == [2] && [2, 5][1..] == [5];
  }

  lemma ExampleWalk()
    ensures BaseStarts([1, 3, 4], [2, 4], 0, 2, 0, 10) == Some([0, 6])
  {
    var v := [1, 3, 4];
    assert [2, 4][1..] == [4] && [4][1..] == [];
    assert [6] + [] == [6] && [0] + [6] == [0, 6];
    assert BaseStarts(v, [], 6, 2, 0, 10) == Some([]);
    assert BaseStarts(v, [4], 2, 2, 0, 10) == Some([6]);
  }

  lemma ExampleBase()
    ensures BaseDim([2, 5], [All, Idx([1, 3, 4])], 0) == 1
  {
    assert !IsFull(Idx([1, 3, 4]), 5);
  }

  lemma ExampleRuns()
    ensures Runs([1, 3, 4], 0) == [1, 2]
  {
    var v := [1, 3, 4];
    assert RunEnd(v, 2) == 3 && RunEnd(v, 1) == 3 && RunEnd(v, 0) == 1;
    assert Runs(v, 3) == [];
    assert Runs(v, 1) == [2] + [];
  }

  lemma ExampleSelection()
    ensures InRange([2, 5], [All, Idx([1, 3, 4])])
    ensures Selected([2, 5], [All, Idx([1, 3, 4])], 2) == [0, 1, 4, 5, 6, 7]
  {
    var dims, subs, v := [2, 5], [All, Idx([1, 3, 4])], [1, 3, 4];
    assert dims[..1] == [2] && dims[..0] == [];
    assert Prod([2]) == 2 * Prod([2][1..]) && Prod([]) == 1;
    FullBelow(dims, subs, 1);
    assert Range(0, 2) == [0, 1];
    ExampleSpread();
  }

  lemma ExampleSpread()
    ensures Spread([1, 3, 4], 2, [0, 1]) == [0, 1, 4, 5, 6, 7]
  {
    hide Spread, Shift;
    var low := [0, 1];
    assert Shift(low, 0) == [0, 1] && Shift(low, 4) == [4, 5] && Shift(low, 6) == [6, 7];
    SpreadHead([1, 3, 4], 2, low);
    SpreadHead([3, 4], 2, low);
    SpreadHead([4], 2, low);
    SpreadNone(2, low);
    assert [1, 3, 4][1..] == [3, 4] && [3, 4][1..] == [4] && [4][1..] == [];
  }

  // In a 2-by-5 array, the linear indices 1 and 2: they fill the first dimension, so
  // the slice is taken to be two columns long.
  lemma LinearExample()
    ensures
      var dims, subs := [2, 5], [Idx([1, 2])];
      && Handled(dims, subs) && !Compact(dims, subs)
      && SliceLens(dims, subs) == [4]
      && ParsedStarts(dims, subs) == Some([0])
      && Selection(dims, subs) == [0, 1]
  {
    hide Runs, Prod, Selected, BaseDim, Stride;
    var dims, subs, v := [2, 5], [Idx([1, 2])], [1, 2];
    LinearBase();
    ExampleSizes();
    assert RunEnd(v, 0) == 2;
    LinearRuns();
    assert Scaled([2], 2) == [4] && [4][1..] == [];
    assert dims[..0] == [];
    assert Stride(dims, 0) == 1 by { StrideFirst(dims); }
    assert BaseStarts(v, [], 4, 1, 0, 10) == Some([]);
    assert [0] + [] == [0];
    LinearSelection();
  }

  lemma StrideFirst(dims: seq<nat>)
    ensures Stride(dims, 0) == 1
  {
    assert dims[..0] == [];
  }

  lemma LinearBase()
    ensures BaseDim([2, 5], [Idx([1, 2])], 0) == 1
  {
    assert IsFull(Idx([1, 2]), 2);
    assert BaseDim([2, 5], [Idx([1, 2])], 1) == 1;
  }

  lemma LinearRuns()
    ensures Runs([1, 2], 0) == [2]
  {
    assert RunEnd([1, 2], 0) == 2 && Runs([1, 2], 2) == [];
  }

  lemma LinearSelection()
    ensures Effective([2, 5], 1) == [10] && InRange([10], [Idx([1, 2])])
    ensures Selected([10], [Idx([1, 2])], 1) == [0, 1]
  {
    hide Spread, Shift;
    assert [2, 5][0..] == [2, 5] && [2, 5][..0] == [];
    ExampleSizes();
    var subs, v := [Idx([1, 2])], [1, 2];
    StrideFirst([10]);
    assert Selected([10], subs, 0) == [0];
    assert Shift([0], 0) == [0] && Shift([0], 1) == [1];
    SpreadHead(v, 1, [0]);
    SpreadHead([2], 1, [0]);
    SpreadNone(1, [0]);
    assert v[1..] == [2] && [2][1..] == [];
    assert [1] + [] == [1] && [0] + [1] == [0, 1];
  }
}
