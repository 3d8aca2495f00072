/** What sharing, fetching and overwriting a value amount to. */
module SharedTheorems {
  import opened Bytes
  import opened Options
  import opened Products
  import opened SharedLayout
  import opened SharedRegions
  import opened SharedSize
  import opened SharedCopy
  import opened SharedFetch
  import opened SharedOverwrite

  // Some full array in the value has no elements but is marked complex.
  ghost predicate HasEmptyComplex(v: Value) {
    match v
    case StructArray(_, _, children) => exists c :: c in children && HasEmptyComplex(c)
    case CellArray(_, children) => exists c :: c in children && HasEmptyComplex(c)
    case FullArray(_, dims, _, im) => IsEmpty(dims) && im.Some?
    case _ => false
  }

  // The round trip gives a value back unchanged exactly when no empty array in
  // it is complex.
  lemma {:induction false} NormExact(v: Value)
    ensures Norm(v) == v <==> !HasEmptyComplex(v)
  {
    hide Prod;
    if v.StructArray? || v.CellArray? {
      forall c | c in v.children ensures Norm(c) == c <==> !HasEmptyComplex(c) {
        NormExact(c);
      }
      NormAllExact(v.children);
    }
  }

  lemma NormAllExact(vs: seq<Value>)
    ensures NormAll(vs) == vs <==> forall c :: c in vs ==> Norm(c) == c
  {
    if forall c :: c in vs ==> Norm(c) == c {
      assert NormAll(vs) == vs;
    } else {
      var c :| c in vs && Norm(c) != c;
      var k :| 0 <= k < |vs| && vs[k] == c;
      assert NormAll(vs)[k] != vs[k];
    }
  }

  // A complex 0-by-0 array comes back real.
  lemma EmptyComplexLost()
    ensures
      var v := FullArray(Double, [0, 0], [], Some([]));
      WellFormed(v) && Supported(v) && Norm(v) == FullArray(Double, [0, 0], [], None) && Norm(v) != v
  {
    assert Prod([0, 0]) == 0 * Prod([0, 0][1..]);
  }

  // Every region lies inside the bytes that were sized, no two regions share a
  // byte, and payloads start at multiples of 32.
  lemma LaidOut(v: Value, base: nat, i: nat, j: nat)
    requires base % 32 == 0 && i < j < |Image(v, base)|
    ensures base <= Image(v, base)[i].at && Image(v, base)[j].End() <= base + Size(v)
    ensures Image(v, base)[i].End() <= Image(v, base)[j].at
    ensures Image(v, base)[i].kind == Payload ==> Image(v, base)[i].at % 32 == 0
    ensures Image(v, base)[j].kind == Payload ==> Image(v, base)[j].at % 32 == 0
  {
    hide Image, Size;
    ImageOrdered(v, base);
    ImageAligned(v, base);
  }

  // Sharing and fetching: the size found in advance is the room the copy takes,
  // and what is fetched from it is the value, its empty arrays real.
  method ShareAndFetch(v: Value) returns (r: Option<Value>)
    requires WellFormed(v) && Size(v) < SIZE_MAX
    ensures r == if Supported(v) then Some(Norm(v)) else None
    ensures r == Some(v) <==> Supported(v) && !HasEmptyComplex(v)
  {
    hide Norm, Size, Image, Stored, Untouched, WellFormed, Supported, HasEmptyComplex;
    NormExact(v);
    var size := FindSharedSize(v);
    if size == None {
      return None;
    }
    var mem := new byte[size.value](_ => 0);
    var used := CopyVariable(mem, 0, v);
    assert used == size.value;
    var fetched := FetchVariable(mem, 0, v);
    return Some(fetched);
  }

  // A value of the shape of a fetched one is its own normal form.
  lemma {:induction false} ShapeNormal(v: Value, w: Value)
    requires WellFormed(v) && WellFormed(w) && SameShape(Norm(v), w)
    ensures Norm(w) == w
    ensures Supported(v) ==> Supported(w)
    decreases v
  {
    hide Prod, WellFormed, SameShape;
    NotOtherShape(v, w);
    if Tree(v) {
      TreeFacts(v, w);
      forall k | 0 <= k < |v.children| ensures Norm(w.children[k]) == w.children[k] && (Supported(v) ==> Supported(w.children[k])) {
        ShapeNormal(v.children[k], w.children[k]);
      }
      assert NormAll(w.children) == w.children;
    } else {
      LeafNormal(v, w);
    }
  }

  lemma LeafNormal(v: Value, w: Value)
    requires Leaf(v) && SameShape(Norm(v), w)
    ensures Norm(w) == w && w.dims == v.dims && !w.OtherArray? && Leaf(w)
  {
    hide Prod;
  }

  // Overwriting after a successful comparison: the new value is fetched, and
  // only payloads of the original copy were written.  After a comparison that
  // fails nothing is written.
  method CompareOverwriteFetch(mem: array<byte>, base: nat, w: Value, ghost v: Value) returns (same: bool, r: Value)
    requires WellFormed(v) && Supported(v) && Size(v) < SIZE_MAX && Stored(mem[..], base, v) && WellFormed(w)
    modifies mem
    ensures same <==> SameShape(Norm(v), w)
    ensures r == if same then w else Norm(v)
    ensures PayloadsOnly(old(mem[..]), mem[..], Image(v, base))
    ensures !same ==> mem[..] == old(mem[..])
  {
    hide Norm, Size, Image, Stored, PayloadsOnly, WellFormed, Supported, SameShape;
    NothingPut(mem[..], Image(v, base));
    same := CompareHeaderSize(mem, base, w, v);
    if same {
      OverwriteHeader(mem, base, w, v);
      ShapeNormal(v, w);
      SizeSame(v, w);
      r := FetchVariable(mem, base, w);
    } else {
      r := FetchVariable(mem, base, v);
    }
  }

  // ----- what may be shared -----

  // `n` is `v` or one of the arrays in it.
  ghost predicate PartOf(n: Value, v: Value)
    decreases v
  {
    n == v || ((v.StructArray? || v.CellArray?) && exists c :: c in v.children && PartOf(n, c))
  }

  // The classes that may be shared.
  predicate Shareable(c: Class) {
    match c
    case Unknown => false
    case Void => false
    case Function => false
    case Cell => true
    case Struct => true
    case Logical => true
    case Char => true
    case Double => true
    case Single => true
    case Int8 => true
    case Uint8 => true
    case Int16 => true
    case Uint16 => true
    case Int32 => true
    case Uint32 => true
    case Int64 => true
    case Uint64 => true
  }

  // A value may be shared exactly when every array in it has two dimensions or more and
  // a class that may.
  lemma {:induction false} SupportedExact(v: Value)
    requires WellFormed(v)
    ensures Supported(v) <==> forall n :: PartOf(n, v) ==> 2 <= |n.dims| && Shareable(ClassOf(n))
    decreases v
  {
    assert PartOf(v, v);
    if v.StructArray? || v.CellArray? {
      forall c | c in v.children
        ensures Supported(c) <==> forall n :: PartOf(n, c) ==> 2 <= |n.dims| && Shareable(ClassOf(n))
        ensures forall n :: PartOf(n, c) ==> PartOf(n, v)
      {
        SupportedExact(c);
      }
    }
  }
}
