/** An operation over the slices of an array. */
module IndexedOps {
  import opened Products
  import opened Slicing
  import opened SliceParsing
  import opened SliceTheorems
  import opened SubscriptParser
  import opened SliceBounds

  // ----- one element after another -----

  // The input for the `k`-th element: a scalar serves all of them.
  function At<I>(input: seq<I>, k: nat): I
    requires |input| == 1 || k < |input|
  {
    if |input| == 1 then input[0] else input[k]
  }

  // The array after the elements at `idx` have been updated one by one.
  function Fold<D, I>(d: seq<D>, idx: seq<nat>, input: seq<I>, k: nat, op: (D, I) -> D): (r: seq<D>)
    requires (forall i :: 0 <= i < |idx| ==> idx[i] < |d|) && (|input| == 1 || k + |idx| <= |input|)
    ensures |r| == |d|
    decreases |idx|
  {
    if idx == [] then d
    else Fold(d[idx[0] := op(d[idx[0]], At(input, k))], idx[1..], input, k + 1, op)
  }

  lemma {:induction false} FoldConcat<D, I>(d: seq<D>, a: seq<nat>, b: seq<nat>, input: seq<I>, k: nat, op: (D, I) -> D)
    requires (forall i :: 0 <= i < |a| ==> a[i] < |d|) && (forall i :: 0 <= i < |b| ==> b[i] < |d|)
    requires |input| == 1 || k + |a| + |b| <= |input|
    ensures forall i :: 0 <= i < |a + b| ==> (a + b)[i] < |d|
    ensures Fold(d, a + b, input, k, op) == Fold(Fold(d, a, input, k, op), b, input, k + |a|, op)
    decreases |a|
  {
    if a == [] {
      assert a + b == b;
    } else {
      assert (a + b)[1..] == a[1..] + b && (a + b)[0] == a[0];
      FoldConcat(d[a[0] := op(d[a[0]], At(input, k))], a[1..], b, input, k + 1, op);
    }
  }

  // A scalar input does not depend on the position.
  lemma {:induction false} FoldScalar<D, I>(d: seq<D>, idx: seq<nat>, input: seq<I>, k: nat, m: nat, op: (D, I) -> D)
    requires (forall i :: 0 <= i < |idx| ==> idx[i] < |d|) && |input| == 1
    ensures Fold(d, idx, input, k, op) == Fold(d, idx, input, m, op)
    decreases |idx|
  {
    if idx != [] {
      FoldScalar(d[idx[0] := op(d[idx[0]], input[0])], idx[1..], input, k + 1, m + 1, op);
    }
  }

  // ----- what becomes of each element -----

  // The positions at which `idx` holds `x`, in order.
  function Places(idx: seq<nat>, x: nat): (ps: seq<nat>)
    ensures forall i :: 0 <= i < |ps| ==> ps[i] < |idx| && idx[ps[i]] == x
    ensures forall i, j :: 0 <= i < j < |ps| ==> ps[i] < ps[j]
    ensures forall j :: 0 <= j < |idx| && idx[j] == x ==> j in ps
  {
    if idx == [] then []
    else
      var n := |idx| - 1;
      var front := Places(idx[..n], x);
      if idx[n] == x then front + [n] else front
  }

  // The inputs that meet element `x`, in order, from position `k` of the input on: those
  // at the positions of its index, or the scalar once for each.
  function Meets<I>(idx: seq<nat>, input: seq<I>, k: nat, x: nat): (inputs: seq<I>)
    requires |input| == 1 || k + |idx| <= |input|
    ensures |inputs| == |Places(idx, x)|
    ensures forall i :: 0 <= i < |inputs| ==> inputs[i] == if |input| == 1 then input[0] else input[k + Places(idx, x)[i]]
  {
    var ps := Places(idx, x);
    seq(|ps|, i requires 0 <= i < |ps| => if |input| == 1 then input[0] else input[k + ps[i]])
  }

  function Chain<D, I>(x: D, inputs: seq<I>, op: (D, I) -> D): D
    decreases |inputs|
  {
    if inputs == [] then x else Chain(op(x, inputs[0]), inputs[1..], op)
  }

  lemma {:induction false} ChainLast<D, I>(x: D, inputs: seq<I>, last: I, op: (D, I) -> D)
    ensures Chain(x, inputs + [last], op) == op(Chain(x, inputs, op), last)
    decreases |inputs|
  {
    if inputs == [] {
      assert ([] + [last])[1..] == [];
    } else {
      assert (inputs + [last])[1..] == inputs[1..] + [last];
      ChainLast(op(x, inputs[0]), inputs[1..], last, op);
    }
  }

  lemma MeetsLast<I>(idx: seq<nat>, input: seq<I>, k: nat, x: nat)
    requires idx != [] && (|input| == 1 || k + |idx| <= |input|)
    ensures
      var n := |idx| - 1;
      var front := Meets(idx[..n], input, k, x);
      Meets(idx, input, k, x) == if idx[n] == x then front + [if |input| == 1 then input[0] else input[k + n]] else front
  {
    hide Places;
    PlacesLast(idx, x);
  }

  lemma PlacesLast(idx: seq<nat>, x: nat)
    requires idx != []
    ensures
      var n := |idx| - 1;
      Places(idx, x) == if idx[n] == x then Places(idx[..n], x) + [n] else Places(idx[..n], x)
  {}

  // The last index of all.
  lemma FoldLast<D, I>(d: seq<D>, idx: seq<nat>, input: seq<I>, k: nat, op: (D, I) -> D)
    requires idx != [] && (forall i :: 0 <= i < |idx| ==> idx[i] < |d|) && (|input| == 1 || k + |idx| <= |input|)
    ensures
      var n := |idx| - 1;
      var front := Fold(d, idx[..n], input, k, op);
      Fold(d, idx, input, k, op) == front[idx[n] := op(front[idx[n]], if |input| == 1 then input[0] else input[k + n])]
  {
    hide Fold, At;
    var n := |idx| - 1;
    assert idx == idx[..n] + [idx[n]];
    FoldConcat(d, idx[..n], [idx[n]], input, k, op);
    FoldSingle(Fold(d, idx[..n], input, k, op), idx[n], input, k + n, op);
  }

  lemma {:induction false} FoldMeets<D, I>(d: seq<D>, idx: seq<nat>, input: seq<I>, k: nat, op: (D, I) -> D, x: nat)
    requires (forall i :: 0 <= i < |idx| ==> idx[i] < |d|) && (|input| == 1 || k + |idx| <= |input|) && x < |d|
    ensures Fold(d, idx, input, k, op)[x] == Chain(d[x], Meets(idx, input, k, x), op)
    decreases |idx|
  {
    hide Chain, Meets, Fold, Places;
    if idx == [] {
      FoldNone(d, input, k, op, x);
    } else {
      var n := |idx| - 1;
      FoldMeets(d, idx[..n], input, k, op, x);
      MeetsLast(idx, input, k, x);
      FoldLast(d, idx, input, k, op);
      ChainLast(d[x], Meets(idx[..n], input, k, x), if |input| == 1 then input[0] else input[k + n], op);
    }
  }

  lemma NotMet<I>(idx: seq<nat>, input: seq<I>, k: nat, x: nat)
    requires x !in idx && (|input| == 1 || k + |idx| <= |input|)
    ensures Meets(idx, input, k, x) == []
  {
    hide Places;
    NoPlaces(idx, x);
  }

  lemma {:induction false} NoPlaces(idx: seq<nat>, x: nat)
    requires x !in idx
    ensures Places(idx, x) == []
  {
    if idx != [] {
      var n := |idx| - 1;
      NoPlaces(idx[..n], x);
      assert idx[n] in idx;
    }
  }

  // Every element meets its own inputs one after the other and no others; an
  // index that repeats is applied each time, an element not indexed is as before.
  lemma FoldAt<D, I>(d: seq<D>, idx: seq<nat>, input: seq<I>, k: nat, op: (D, I) -> D, x: nat)
    requires (forall i :: 0 <= i < |idx| ==> idx[i] < |d|) && (|input| == 1 || k + |idx| <= |input|) && x < |d|
    ensures Fold(d, idx, input, k, op)[x] == Chain(d[x], Meets(idx, input, k, x), op)
    ensures x !in idx ==> Fold(d, idx, input, k, op)[x] == d[x]
  {
    hide Meets, Fold;
    FoldMeets(d, idx, input, k, op, x);
    if x !in idx {
      NotMet(idx, input, k, x);
    }
  }

  lemma FoldNone<D, I>(d: seq<D>, input: seq<I>, k: nat, op: (D, I) -> D, x: nat)
    requires (|input| == 1 || k <= |input|) && x < |d|
    ensures Fold(d, [], input, k, op) == d && Chain(d[x], Meets([], input, k, x), op) == d[x]
  {}

  // With no index repeated, each selected element meets the input of its own position,
  // or the scalar, once.
  lemma FoldDistinct<D, I>(d: seq<D>, idx: seq<nat>, input: seq<I>, op: (D, I) -> D, k: nat)
    requires (forall i :: 0 <= i < |idx| ==> idx[i] < |d|) && (|input| == 1 || |idx| <= |input|) && k < |idx|
    requires forall i, j :: 0 <= i < j < |idx| ==> idx[i] != idx[j]
    ensures Fold(d, idx, input, 0, op)[idx[k]] == op(d[idx[k]], if |input| == 1 then input[0] else input[k])
  {
    hide Fold, At;
    var x := idx[k];
    FoldAt(d, idx, input, 0, op, x);
    OnePlace(idx, k);
    ChainOnce(d[x], Meets(idx, input, 0, x), op);
  }

  lemma OnePlace(idx: seq<nat>, k: nat)
    requires k < |idx| && forall i, j :: 0 <= i < j < |idx| ==> idx[i] != idx[j]
    ensures Places(idx, idx[k]) == [k]
  {
    hide Places;
    var ps := Places(idx, idx[k]);
    assert k in ps && forall i :: 0 <= i < |ps| ==> ps[i] == k;
    FirstOnly(ps, k, |ps| - 1);
  }

  lemma FirstOnly(ps: seq<nat>, k: nat, i: nat)
    requires i < |ps| && (forall j :: 0 <= j < |ps| ==> ps[j] == k) && forall j, m :: 0 <= j < m < |ps| ==> ps[j] < ps[m]
    ensures i == 0
  {
    var a, b := ps[0], ps[i];
    if i > 0 {
      assert false;
    }
  }

  lemma ChainOnce<D, I>(x: D, inputs: seq<I>, op: (D, I) -> D)
    requires |inputs| == 1
    ensures Chain(x, inputs, op) == op(x, inputs[0])
  {
    assert inputs[1..] == [];
  }

  // ----- the loops -----

  // The runner on one slice: element by element, from the given input position.
  method RunSlice<D, I>(dest: array<D>, start: nat, len: nat, input: seq<I>, from: nat, op: (D, I) -> D)
    requires start + len <= dest.Length && (|input| == 1 || from + len <= |input|)
    modifies dest
    ensures forall x :: 0 <= x < |Range(start, len)| ==> Range(start, len)[x] < dest.Length
    ensures dest[..] == Fold(old(dest[..]), Range(start, len), input, from, op)
  {
    ghost var was := dest[..];
    var i := 0;
    while i < len
      invariant i <= len && dest[..] == Fold(was, Range(start, i), input, from, op)
    {
      ghost var before := dest[..];
      dest[start + i] := if |input| == 1 then op(dest[start + i], input[0]) else op(dest[start + i], input[from + i]);
      assert Range(start, i + 1) == Range(start, i) + [start + i];
      FoldConcat(was, Range(start, i), [start + i], input, from, op);
      FoldSingle(before, start + i, input, from + i, op);
      i := i + 1;
    }
  }

  lemma FoldSingle<D, I>(d: seq<D>, x: nat, input: seq<I>, k: nat, op: (D, I) -> D)
    requires x < |d| && (|input| == 1 || k < |input|)
    ensures Fold(d, [x], input, k, op) == d[x := op(d[x], if |input| == 1 then input[0] else input[k])]
  {
    assert [x][1..] == [];
  }

  // The slices reached after `i` starts, the last `j` of them in an unfinished group.
  ghost function Reached(starts: seq<nat>, lens: seq<nat>, i: nat, j: nat): seq<nat>
    requires j <= |lens| && i + j <= |starts|
  {
    Expand(starts[..i], lens) + Group(starts[i..i + j], lens[..j])
  }

  lemma {:induction false} GroupConcat(a: seq<nat>, b: seq<nat>, la: seq<nat>, lb: seq<nat>)
    requires |a| == |la| && |b| == |lb|
    ensures Group(a + b, la + lb) == Group(a, la) + Group(b, lb)
  {
    if a == [] {
      assert a + b == b && la + lb == lb;
    } else {
      assert (a + b)[1..] == a[1..] + b && (la + lb)[1..] == la[1..] + lb;
      GroupConcat(a[1..], b, la[1..], lb);
    }
  }

  // One slice more.
  lemma ReachedNext(starts: seq<nat>, lens: seq<nat>, i: nat, j: nat)
    requires |lens| > 0 && j < |lens| && i + j < |starts|
    ensures Reached(starts, lens, i, j + 1) == Reached(starts, lens, i, j) + Range(starts[i + j], lens[j])
  {
    assert starts[i..i + j + 1] == starts[i..i + j] + [starts[i + j]] && lens[..j + 1] == lens[..j] + [lens[j]];
    GroupConcat(starts[i..i + j], [starts[i + j]], lens[..j], [lens[j]]);
    GroupSingle(starts[i + j], lens[j]);
  }

  lemma GroupSingle(s: nat, len: nat)
    ensures Group([s], [len]) == Range(s, len)
  {
    assert [s][1..] == [] && [len][1..] == [];
    assert Group([], []) == [];
    assert Range(s, len) + [] == Range(s, len);
  }

  lemma GroupNone()
    ensures Group([], []) == []
  {}

  // One group more.
  lemma ReachedGroup(starts: seq<nat>, lens: seq<nat>, i: nat, k: nat)
    requires |lens| > 0 && i == k * |lens| && i + |lens| <= |starts|
    ensures Reached(starts, lens, i, |lens|) == Reached(starts, lens, i + |lens|, 0)
  {
    hide Expand, Group;
    var n := |lens|;
    var group := starts[i..i + n];
    assert starts[..i + n] == starts[..i] + group && lens[..n] == lens;
    ExpandConcat(starts[..i], k, group, lens);
    ExpandGroup(group, lens);
    assert starts[i + n..i + n + 0] == [] && lens[..0] == [];
    GroupNone();
    assert Expand(starts[..i + n], lens) + [] == Expand(starts[..i + n], lens);
  }

  // What is reached is a part of the whole.
  lemma ReachedPart(starts: seq<nat>, lens: seq<nat>, i: nat, k: nat, j: nat)
    requires |lens| > 0 && i == k * |lens| && i + |lens| <= |starts| && j <= |lens|
    ensures Reached(starts, lens, i, j) <= Expand(starts, lens)
  {
    hide Expand, Group;
    var n := |lens|;
    var before, group, rest := starts[..i], starts[i..i + n], starts[i + n..];
    assert |before| == k * |lens|;
    SplitThree(starts, i, n, j);
    PartOfWhole(before, k, group, rest, lens, j);
  }

  lemma SplitThree(c: seq<nat>, i: nat, n: nat, j: nat)
    requires i + n <= |c| && j <= n
    ensures c == c[..i] + (c[i..i + n] + c[i + n..]) && c[i..i + n][..j] == c[i..i + j]
  {}

  lemma PartOfWhole(before: seq<nat>, k: nat, group: seq<nat>, rest: seq<nat>, lens: seq<nat>, j: nat)
    requires |before| == k * |lens| && |group| == |lens| > 0 && j <= |lens|
    ensures Expand(before, lens) + Group(group[..j], lens[..j]) <= Expand(before + (group + rest), lens)
  {
    hide Expand, Group;
    ExpandConcat(before, k, group + rest, lens);
    GroupFirst(group, rest, lens);
    GroupPart(group, lens, j);
    PrefixParts(Expand(before, lens), Group(group[..j], lens[..j]), Group(group, lens), Expand(rest, lens));
  }

  lemma GroupFirst(group: seq<nat>, rest: seq<nat>, lens: seq<nat>)
    requires |group| == |lens| > 0
    ensures Expand(group + rest, lens) == Group(group, lens) + Expand(rest, lens)
  {
    ExpandConcat(group, 1, rest, lens);
    ExpandGroup(group, lens);
  }

  lemma GroupPart(group: seq<nat>, lens: seq<nat>, j: nat)
    requires |group| == |lens| && j <= |lens|
    ensures Group(group[..j], lens[..j]) <= Group(group, lens)
  {
    hide Group;
    assert group == group[..j] + group[j..] && lens == lens[..j] + lens[j..];
    GroupConcat(group[..j], group[j..], lens[..j], lens[j..]);
  }

  lemma PrefixParts(a: seq<nat>, b: seq<nat>, c: seq<nat>, d: seq<nat>)
    requires b <= c
    ensures a + b <= a + (c + d)
  {}

  // Where the loops stand: the elements reached so far have been updated, and
  // `from` is the input position that comes next.
  ghost predicate Done<D, I>(was: seq<D>, now: seq<D>, reached: seq<nat>, all: seq<nat>, input: seq<I>, from: nat, op: (D, I) -> D) {
    && reached <= all && (forall x :: 0 <= x < |all| ==> all[x] < |was|)
    && (|input| == 1 || (|input| == |all| && from == |reached|))
    && now == Fold(was, reached, input, 0, op)
  }

  lemma SliceFits<D, I>(was: seq<D>, now: seq<D>, reached: seq<nat>, all: seq<nat>, input: seq<I>, from: nat, op: (D, I) -> D, start: nat, len: nat)
    requires Done(was, now, reached, all, input, from, op) && reached + Range(start, len) <= all && len > 0
    ensures start + len <= |was| == |now| && (|input| == 1 || from + len <= |input|)
    ensures forall x :: 0 <= x < len ==> Range(start, len)[x] < |now|
  {
    assert all[|reached| + len - 1] == (reached + Range(start, len))[|reached| + len - 1] == start + len - 1;
  }

  lemma DoneNext<D, I>(was: seq<D>, now: seq<D>, reached: seq<nat>, all: seq<nat>, input: seq<I>, from: nat, op: (D, I) -> D, start: nat, len: nat, after: seq<D>)
    requires Done(was, now, reached, all, input, from, op) && reached + Range(start, len) <= all && len > 0
    requires start + len <= |now| && (|input| == 1 || from + len <= |input|)
    requires after == Fold(now, Range(start, len), input, from, op)
    ensures Done(was, after, reached + Range(start, len), all, input, if |input| == 1 then from else from + len, op)
  {
    hide Fold, At;
    var slice := Range(start, len);
    SliceFits(was, now, reached, all, input, from, op, start, len);
    FoldConcat(was, reached, slice, input, 0, op);
    if |input| == 1 {
      FoldScalar(now, slice, input, from, |reached|, op);
    }
  }

  // The indexed operation: slice after slice, the input advancing with them
  // unless it is a scalar.
  method OperateSlices<D, I>(dest: array<D>, starts: seq<nat>, lens: seq<nat>, ghost groups: nat, input: seq<I>, op: (D, I) -> D)
    requires |starts| == groups * |lens|
    requires forall x :: 0 <= x < |Expand(starts, lens)| ==> Expand(starts, lens)[x] < dest.Length
    requires forall i :: 0 <= i < |lens| ==> lens[i] > 0
    requires |input| == 1 || |input| == |Expand(starts, lens)|
    modifies dest
    ensures dest[..] == Fold(old(dest[..]), Expand(starts, lens), input, 0, op)
  {
    hide Expand, Group, Fold, Done, Reached, Range;
    ghost var was, all, k := dest[..], Expand(starts, lens), 0;
    var i, from := 0, 0;
    ReachedNone(starts, lens);
    DoneNone(was, all, input, op);
    while i < |starts|
      invariant i == k * |lens| && k <= groups && i <= |starts|
      invariant Done(was, dest[..], Reached(starts, lens, i, 0), all, input, from, op)
      decreases |starts| - i
    {
      NextGroup(k, groups, |lens|);
      var j := 0;
      while j < |lens|
        invariant j <= |lens| && i + |lens| <= |starts|
        invariant Done(was, dest[..], Reached(starts, lens, i, j), all, input, from, op)
      {
        ghost var reached, now := Reached(starts, lens, i, j), dest[..];
        ReachedPart(starts, lens, i, k, j + 1);
        ReachedNext(starts, lens, i, j);
        SliceFits(was, now, reached, all, input, from, op, starts[i + j], lens[j]);
        RunSlice(dest, starts[i + j], lens[j], input, from, op);
        DoneNext(was, now, reached, all, input, from, op, starts[i + j], lens[j], dest[..]);
        if |input| != 1 {
          from := from + lens[j];
        }
        j := j + 1;
      }
      ReachedGroup(starts, lens, i, k);
      i, k := i + |lens|, k + 1;
    }
    ReachedAll(starts, lens);
    DoneAll(was, dest[..], all, all, input, from, op);
  }

  lemma DoneNone<D, I>(was: seq<D>, all: seq<nat>, input: seq<I>, op: (D, I) -> D)
    requires (forall x :: 0 <= x < |all| ==> all[x] < |was|) && (|input| == 1 || |input| == |all|)
    ensures Done(was, was, [], all, input, 0, op)
  {}

  lemma DoneAll<D, I>(was: seq<D>, now: seq<D>, reached: seq<nat>, all: seq<nat>, input: seq<I>, from: nat, op: (D, I) -> D)
    requires Done(was, now, reached, all, input, from, op)
    ensures reached <= all && (forall x :: 0 <= x < |all| ==> all[x] < |was|) && (|input| == 1 || |input| == |all|)
    ensures now == Fold(was, reached, input, 0, op)
  {}

  lemma NextGroup(k: nat, groups: nat, n: nat)
    requires k * n < groups * n
    ensures k < groups && (k + 1) * n <= groups * n
  {
    if k >= groups {
      MulOrder(groups, k, n);
    }
    MulOrder(k + 1, groups, n);
  }

  lemma ReachedNone(starts: seq<nat>, lens: seq<nat>)
    ensures Reached(starts, lens, 0, 0) == []
  {
    assert starts[..0] == [] && starts[0..0] == [] && lens[..0] == [];
  }

  lemma ReachedAll(starts: seq<nat>, lens: seq<nat>)
    ensures Reached(starts, lens, |starts|, 0) == Expand(starts, lens)
  {
    assert starts[..|starts|] == starts && starts[|starts|..|starts| + 0] == [] && lens[..0] == [];
    assert Group([], []) == [];
    assert Expand(starts, lens) + [] == Expand(starts, lens);
  }

  // ----- from subscripts to the updated array -----

  lemma SlicesLong(dims: seq<nat>, subs: seq<Sub>)
    requires |subs| >= 1 && |dims| >= 2 && Shaped(dims, subs)
    ensures forall k :: 0 <= k < |SliceLens(dims, subs)| ==> SliceLens(dims, subs)[k] >= 1
  {
    hide Prod, Runs, Stride, BaseDim;
    var base := BaseDim(dims, subs, 0);
    BaseDimMeans(dims, subs, 0);
    if base == |dims| {
      ProdPositive(dims);
    } else {
      var last := if base < |subs| then base else |subs| - 1;
      StridePositive(dims, base);
      RunsLong(subs[last].indices, 0);
      ScaledLong(Runs(subs[last].indices, 0), Stride(dims, base));
    }
  }

  // The operation updates the elements of the slices one after the other and nothing
  // else, or refuses a slice and writes nothing.  With compact subscripts, or nothing
  // selected, these are the selected elements in column-major order.
  method OperateOn<D, I>(dest: array<D>, dims: seq<nat>, subs: seq<Sub>, input: seq<I>, op: (D, I) -> D) returns (ok: bool)
    requires |subs| >= 1 && |dims| >= 2 && Shaped(dims, subs) && dest.Length == Prod(dims)
    // every slot has been written, and the input is a scalar or has an element for each updated one
    requires
      var w := ParsedStarts(dims, subs);
      w.Some? ==> |w.value| == NumStarts(dims, subs) && (|input| == 1 || |input| == |Expand(w.value, SliceLens(dims, subs))|)
    modifies dest
    ensures ok <==> ParsedStarts(dims, subs).Some?
    ensures ok ==> Inside(Expand(ParsedStarts(dims, subs).value, SliceLens(dims, subs)), dest.Length)
    ensures dest[..] == if ok then Fold(old(dest[..]), Expand(ParsedStarts(dims, subs).value, SliceLens(dims, subs)), input, 0, op) else old(dest[..])
    ensures Fit(dims, subs) && (Compact(dims, subs) || Hollow(subs)) ==>
      && ok && Expand(ParsedStarts(dims, subs).value, SliceLens(dims, subs)) == Selection(dims, subs)
      && dest[..] == Fold(old(dest[..]), Selection(dims, subs), input, 0, op)
  {
    hide Prod, Selection, InRange, Compact, Expand, SliceLens, Fold, ParsedStarts, Fit;
    SlicesLong(dims, subs);
    var outcome := ParseIndices(dims, subs);
    if outcome == OutOfBounds {
      return false;
    }
    SlicesInside(dims, subs);
    PrefixWhole(ParsedStarts(dims, subs).value, outcome.starts);
    ghost var groups := RoomGrouped(dims, subs, |outcome.lens|, |subs| - 1, BaseDim(dims, subs, 0));
    OperateSlices(dest, outcome.starts, outcome.lens, groups, input, op);
    ok := true;
  }
}
