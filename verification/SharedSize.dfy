/** Finding the size of a value before it is shared. */
module SharedSize {
  import opened Bytes
  import opened Options
  import opened Products
  import opened SharedLayout
  import opened SharedRegions

  // ----- sizing -----

  lemma SmallPad(n: nat)
    requires 1 <= n <= 32
    ensures Pad(n) == 32
  {}

  // The elements of one field, among those of all fields.
  lemma ColumnFits(f: nat, fields: nat, elems: nat)
    requires f < fields
    ensures f * elems + elems == (f + 1) * elems <= fields * elems
  {}

  // The size of a value before it is shared; an error for a class that cannot
  // be shared or for too few dimensions, anywhere inside.
  method FindSharedSize(v: Value) returns (size: Option<nat>)
    requires WellFormed(v)
    ensures size == if Supported(v) then Some(Size(v)) else None
    decreases v, 1
  {
    hide Pad, Prod, Size, BlocksEnd, Payloads;
    if |v.dims| < 2 {
      return None;
    }
    var total := HEADER_SIZE + |v.dims| * 8;
    if v.StructArray? {
      size := StructSize(v, total);
    } else if v.CellArray? {
      size := CellSize(v, total);
    } else if v.SparseArray? {
      total := SparseSize(v, total);
      size := Some(total);
    } else if v.FullArray? {
      total := FullSize(v, total);
      size := Some(total);
    } else {
      size := None;
    }
  }

  ghost predicate KidsSupported(vs: seq<Value>) {
    forall c :: c in vs ==> Supported(c)
  }

  // One child more has been sized.
  lemma OneMore(v: Value, count: nat)
    requires (v.StructArray? || v.CellArray?) && count < |v.children| && KidsSupported(v.children[..count])
    ensures KidsSize(v.children[..count + 1]) == KidsSize(v.children[..count]) + Pad(Size(v.children[count]))
    ensures Supported(v.children[count]) ==> KidsSupported(v.children[..count + 1])
    ensures !Supported(v.children[count]) ==> !Supported(v)
  {
    KidsSizeAt(v.children, count);
  }

  lemma ChildCount(v: Value)
    requires WellFormed(v)
    ensures v.StructArray? ==> |v.children| == |v.fields| * Prod(v.dims)
    ensures v.CellArray? ==> |v.children| == Prod(v.dims)
  {}

  lemma ChildFine(v: Value, k: nat)
    requires (v.StructArray? || v.CellArray?) && WellFormed(v) && k < |v.children|
    ensures WellFormed(v.children[k])
  {}

  method StructSize(v: Value, curr: nat) returns (size: Option<nat>)
    requires v.StructArray? && WellFormed(v) && curr == HeadSize(v.dims) && 2 <= |v.dims|
    ensures size == if Supported(v) then Some(Size(v)) else None
    decreases v, 0
  {
    hide Pad, Prod, KidsSize, Supported, KidsSupported, NamesSize, WellFormed;
    var n, fields, children := Prod(v.dims), v.fields, v.children;
    ChildCount(v);
    var names := FieldNamesSize(fields);
    var total := Pad(curr + |fields| * n * 8 + names);
    assert total == KidsStart(v) + KidsSize(children[..0]) by { NoKids(children); }
    var f, count := 0, 0;
    NoneSupported(children);
    while f < |fields|
      invariant f <= |fields| && count == f * n <= |children|
      invariant total == KidsStart(v) + KidsSize(children[..count]) && KidsSupported(children[..count])
    {
      ColumnFits(f, |fields|, n);
      ghost var from := count;
      var idx := 0;
      while idx < n
        invariant idx <= n && count == from + idx
        invariant total == KidsStart(v) + KidsSize(children[..count]) && KidsSupported(children[..count])
      {
        ChildFine(v, count);
        var kid := FindSharedSize(children[count]);
        OneMore(v, count);
        if kid == None {
          return None;
        }
        total := total + Pad(kid.value);
        idx, count := idx + 1, count + 1;
      }
      f := f + 1;
    }
    assert children[..count] == children;
    AllSupported(v);
    return Some(total);
  }

  lemma NoKids(vs: seq<Value>)
    ensures KidsSize(vs[..0]) == 0
  {}

  lemma NoneSupported(vs: seq<Value>)
    ensures KidsSupported(vs[..0])
  {}

  lemma AllSupported(v: Value)
    requires (v.StructArray? || v.CellArray?) && 2 <= |v.dims| && KidsSupported(v.children)
    ensures Supported(v)
  {}

  method CellSize(v: Value, curr: nat) returns (size: Option<nat>)
    requires v.CellArray? && WellFormed(v) && curr == HeadSize(v.dims) && 2 <= |v.dims|
    ensures size == if Supported(v) then Some(Size(v)) else None
    decreases v, 0
  {
    hide Pad, Prod, KidsSize, Supported, KidsSupported, WellFormed;
    var n, children := Prod(v.dims), v.children;
    ChildCount(v);
    var total := Pad(curr + n * 8);
    assert total == KidsStart(v) + KidsSize(children[..0]) by { NoKids(children); }
    var count := 0;
    NoneSupported(children);
    while count < n
      invariant count <= |children|
      invariant total == KidsStart(v) + KidsSize(children[..count]) && KidsSupported(children[..count])
    {
      ChildFine(v, count);
      var kid := FindSharedSize(children[count]);
      OneMore(v, count);
      if kid == None {
        return None;
      }
      total := total + Pad(kid.value);
      count := count + 1;
    }
    assert children[..count] == children;
    AllSupported(v);
    return Some(total);
  }

  method FieldNamesSize(fields: seq<seq<byte>>) returns (total: nat)
    ensures total == NamesSize(fields)
  {
    total := 0;
    var i := 0;
    while i < |fields|
      invariant i <= |fields| && total == NamesSize(fields[..i])
    {
      assert fields[..i + 1][..i] == fields[..i];
      total := total + |fields[i]| + 1;
      i := i + 1;
    }
    assert fields[..i] == fields;
  }

  function AddAligned(curr: nat, n: nat): nat {
    Pad(curr + ALLOC_SIZE) + Pad(n)
  }

  lemma BlocksEndNext(curr: nat, ps: seq<seq<byte>>, a: seq<byte>)
    ensures BlocksEnd(curr, ps + [a]) == BlockEnd(BlocksEnd(curr, ps), |a|)
  {
    assert (ps + [a])[..|ps|] == ps;
  }

  // A scalar is given room for two elements, which padding makes the same as
  // room for one.
  method FullSize(v: Value, curr: nat) returns (total: nat)
    requires v.FullArray? && WellFormed(v) && curr == HeadSize(v.dims)
    ensures total == Size(v)
  {
    hide Pad, Prod, BlocksEnd, WellFormed;
    total := curr;
    NoBlocks(curr);
    if IsEmpty(v.dims) {
      return;
    }
    var n := Prod(v.dims);
    var elem := ElemSize(v.cls);
    SmallPad(elem);
    SmallPad(elem * 2);
    DataSize(v);
    BlocksEndNext(curr, [], v.re);
    assert [] + [v.re] == [v.re];
    total := AddAligned(total, if n == 1 then elem * 2 else elem * n);
    if v.im.Some? {
      BlocksEndNext(curr, [v.re], v.im.value);
      assert [v.re] + [v.im.value] == [v.re, v.im.value];
      total := AddAligned(total, if n == 1 then elem * 2 else elem * n);
    }
  }

  lemma NoBlocks(curr: nat)
    ensures BlocksEnd(curr, []) == curr
  {}

  lemma DataSize(v: Value)
    requires (v.FullArray? || v.SparseArray?) && WellFormed(v)
    ensures v.FullArray? ==> |v.re| == ElemSize(v.cls) * Prod(v.dims) && (v.im.Some? ==> |v.im.value| == |v.re|)
    ensures v.SparseArray? ==> |v.re| == ElemSize(v.cls) * v.nzmax && (v.im.Some? ==> |v.im.value| == |v.re|)
  {}

  method SparseSize(v: Value, curr: nat) returns (total: nat)
    requires v.SparseArray? && WellFormed(v) && curr == HeadSize(v.dims)
    ensures total == Size(v)
  {
    hide Pad, BlocksEnd;
    var elem := ElemSize(v.cls);
    NoBlocks(curr);
    DataSize(v);
    total := AddAligned(curr, elem * v.nzmax);
    BlocksEndNext(curr, [], v.re);
    ghost var ps := [] + [v.re];
    if v.im.Some? {
      total := AddAligned(total, elem * v.nzmax);
      BlocksEndNext(curr, ps, v.im.value);
      ps := ps + [v.im.value];
    }
    total := AddAligned(total, 8 * v.nzmax);
    BlocksEndNext(curr, ps, v.ir);
    ps := ps + [v.ir];
    total := AddAligned(total, 8 * (v.dims[1] + 1));
    BlocksEndNext(curr, ps, v.jc);
    ps := ps + [v.jc];
    assert ps == Payloads(v);
  }
}
