/** Comparing a stored value with a new one, and overwriting it in place. */
module SharedOverwrite {
  import opened Bytes
  import opened Options
  import opened Products
  import opened SharedLayout
  import opened SharedRegions
  import opened SharedSize
  import opened SharedCopy
  import opened SharedFetch

  // Two values that differ at most in the contents of their payloads.
  ghost predicate SameShape(a: Value, b: Value) {
    a.dims == b.dims &&
    match a
    case StructArray(_, fields, children) =>
      b.StructArray? && b.fields == fields && |b.children| == |children|
      && forall k :: 0 <= k < |children| ==> SameShape(children[k], b.children[k])
    case CellArray(_, children) =>
      b.CellArray? && |b.children| == |children| && forall k :: 0 <= k < |children| ==> SameShape(children[k], b.children[k])
    case FullArray(cls, _, _, im) => b.FullArray? && b.cls == cls && (b.im.Some? <==> im.Some?)
    case SparseArray(cls, _, nzmax, _, im, _, _) =>
      b.SparseArray? && b.cls == cls && (b.im.Some? <==> im.Some?) && b.nzmax == nzmax
    case OtherArray(_, _) => false
  }

  lemma NormShape(v: Value)
    ensures Norm(v).dims == v.dims && ClassOf(Norm(v)) == ClassOf(v)
    ensures v.StructArray? ==> Norm(v) == StructArray(v.dims, v.fields, NormAll(v.children))
    ensures v.CellArray? ==> Norm(v) == CellArray(v.dims, NormAll(v.children))
    ensures v.FullArray? ==> Norm(v).FullArray? && Norm(v).im == if IsEmpty(v.dims) then None else v.im
    ensures v.SparseArray? ==> Norm(v) == v
  {
    hide NormAll, Prod;
  }

  lemma ClassTells(v: Value)
    requires WellFormed(v)
    ensures ClassOf(v) == Struct <==> v.StructArray?
    ensures ClassOf(v) == Cell <==> v.CellArray?
    ensures Basic(ClassOf(v)) <==> v.FullArray? || v.SparseArray?
  {
    hide Prod;
  }

  lemma KidWell(v: Value, k: nat)
    requires Tree(v) && WellFormed(v) && k < |v.children|
    ensures WellFormed(v.children[k])
  {}

  // ----- comparing -----

  // Whether the new value `w` may overwrite the value stored at `base`.
  method CompareHeaderSize(mem: array<byte>, base: nat, w: Value, ghost v: Value) returns (same: bool)
    requires WellFormed(v) && Supported(v) && Size(v) < SIZE_MAX && Stored(mem[..], base, v)
    requires WellFormed(w)
    ensures same <==> SameShape(Norm(v), w)
    decreases v, 1
  {
    hide Stored, Size, Words, WellFormed, Supported, Norm, HeaderOf, Pack, Fits, Prod, Basic, SameShape;
    HeaderFits(v);
    StoredParts(mem[..], base, v);
    var h := ReadHeader(mem, base, HeaderOf(v));
    HeaderTells(v);
    NotOther(v);
    NormShape(v);
    ClassTells(v);
    ClassTells(w);
    DimsFit(v);
    var dims := ReadWords(mem, base + HEADER_SIZE, h.numDims, v.dims);
    var cls := FromCode(h.classId);
    if cls != ClassOf(w) || h.numDims != |w.dims| || dims != w.dims {
      HeadShape(v, w);
      return false;
    }
    if cls == Struct {
      same := CompareStruct(mem, base, h, w, v);
    } else if cls == Cell {
      same := CompareCell(mem, base, h, w, v);
    } else {
      LeafShape(v, w);
      NotOther(v);
      if (h.imag != SIZE_MAX) != ComplexPart(w) {
        return false;
      }
      if h.isSparse != 0 {
        TwoDims(v, w);
        same := w.SparseArray? && h.num == w.nzmax && dims[1] == w.dims[1];
      } else {
        same := h.num == Prod(w.dims) && !w.SparseArray?;
      }
    }
  }

  lemma TwoDims(v: Value, w: Value)
    requires WellFormed(v) && v.SparseArray?
    ensures |v.dims| == 2
  {}

  lemma HeadShape(v: Value, w: Value)
    ensures SameShape(Norm(v), w) ==> ClassOf(v) == ClassOf(w) && v.dims == w.dims
  {
    NormShape(v);
  }

  lemma LeafShape(v: Value, w: Value)
    requires Leaf(v) && WellFormed(v) && WellFormed(w) && ClassOf(v) == ClassOf(w) && v.dims == w.dims
    ensures SameShape(Norm(v), w) <==>
      ComplexPart(Norm(v)) == ComplexPart(w) && (if v.SparseArray? then w.SparseArray? && v.nzmax == w.nzmax else !w.SparseArray?)
  {
    hide Prod;
    NormShape(v);
    ClassTells(v);
    ClassTells(w);
  }

  function ComplexPart(w: Value): bool {
    Leaf(w) && w.im.Some?
  }

  lemma KidsShape(v: Value, w: Value, k: nat)
    requires Tree(v) && Tree(w) && |w.children| == |v.children| && k < |v.children| && !SameShape(Norm(v.children[k]), w.children[k])
    ensures !SameShape(Norm(v), w)
  {
    NormShape(v);
  }

  lemma FieldsShape(v: Value, w: Value)
    requires v.StructArray?
    ensures SameShape(Norm(v), w) ==> w.StructArray? && v.fields == w.fields
  {
    NormShape(v);
  }

  lemma TreeShape(v: Value, w: Value)
    requires Tree(v) && (if v.StructArray? then w.StructArray? && v.fields == w.fields else w.CellArray?)
    requires v.dims == w.dims && |v.children| == |w.children|
    requires forall k :: 0 <= k < |v.children| ==> SameShape(Norm(v.children[k]), w.children[k])
    ensures SameShape(Norm(v), w)
  {
    NormShape(v);
  }

  // The first `n` children agree in shape.
  ghost predicate KidsMatch(v: Value, w: Value, n: nat)
    requires Tree(v) && Tree(w)
  {
    n <= |v.children| == |w.children| && forall k :: 0 <= k < n ==> SameShape(Norm(v.children[k]), w.children[k])
  }

  lemma NoneMatch(v: Value, w: Value)
    requires Tree(v) && Tree(w) && |v.children| == |w.children|
    ensures KidsMatch(v, w, 0)
  {}

  lemma AllMatch(v: Value, w: Value)
    requires v.StructArray? && w.StructArray? && v.fields == w.fields && v.dims == w.dims && KidsMatch(v, w, |v.children|)
    ensures SameShape(Norm(v), w)
  {
    TreeShape(v, w);
  }

  // The elements of one field.
  method CompareColumn(mem: array<byte>, base: nat, kids: nat, n: nat, start: nat, w: Value, ghost v: Value) returns (same: bool)
    requires v.StructArray? && WellFormed(v) && Supported(v) && Size(v) < SIZE_MAX && Stored(mem[..], base, v)
    requires kids == HeadSize(v.dims) && WellFormed(w) && w.StructArray? && KidsMatch(v, w, start) && start + n <= |v.children|
    ensures same ==> KidsMatch(v, w, start + n)
    ensures !same ==> !SameShape(Norm(v), w)
    decreases v, 0, n
  {
    hide Stored, Size, Words, WellFormed, Supported, HeaderOf, Prod, KidsSize, KidsStart, Norm, SameShape;
    var idx, count := 0, start;
    while idx < n
      invariant idx <= n && count == start + idx
      invariant KidsMatch(v, w, count)
    {
      KidWell(w, count);
      var at := KidBase(mem, base, kids, count, v);
      var kid := CompareHeaderSize(mem, at, w.children[count], v.children[count]);
      if !kid {
        KidsShape(v, w, count);
        return false;
      }
      idx, count := idx + 1, count + 1;
    }
    return true;
  }

  // Position of the children of field `f`.
  ghost predicate AtColumn(count: nat, f: nat, numElems: nat) {
    count == f * numElems
  }

  lemma ColumnStart(n: nat)
    ensures AtColumn(0, 0, n)
  {}

  lemma ColumnsMeet(total: nat, fields: nat, n: nat)
    requires total == fields * n
    ensures AtColumn(total, fields, n)
  {}

  lemma ColumnNext(count: nat, f: nat, fields: nat, n: nat, total: nat)
    requires AtColumn(count, f, n) && AtColumn(total, fields, n) && f < fields
    ensures AtColumn(count + n, f + 1, n) && count + n <= total
  {
    ColumnFits(f, fields, n);
  }

  lemma ColumnEnd(count: nat, f: nat, n: nat, total: nat)
    requires AtColumn(count, f, n) && AtColumn(total, f, n)
    ensures count == total
  {}

  method CompareStruct(mem: array<byte>, base: nat, h: Header, w: Value, ghost v: Value) returns (same: bool)
    requires v.StructArray? && WellFormed(v) && Supported(v) && Size(v) < SIZE_MAX && Stored(mem[..], base, v)
    requires h == HeaderOf(v) && WellFormed(w) && w.StructArray? && w.dims == v.dims
    ensures same <==> SameShape(Norm(v), w)
    decreases v, 0, |v.children| + 1
  {
    hide Stored, Size, Words, WellFormed, Supported, HeaderOf, Prod, KidsSize, KidsStart, Norm, SameShape, NamesSize, Names, KidsMatch, At, HeadSize, Offsets, AtColumn;
    HeaderTells(v);
    ChildCount(v);
    ChildCount(w);
    NamesFine(v);
    TreeParts(mem[..], base, v);
    var numElems, numFields := h.num, h.numFields;
    if numFields != |w.fields| || numElems != Prod(w.dims) {
      FieldsShape(v, w);
      return false;
    }
    ColumnsMeet(|v.children|, numFields, numElems);
    NoSizes(v);
    NoneMatch(v, w);
    ColumnStart(numElems);
    var pos, f, count := base + h.irOrNames, 0, 0;
    while f < numFields
      invariant f <= numFields && AtColumn(count, f, numElems)
      invariant pos == base + NamesOff(v) + NamesSize(v.fields[..f])
      invariant forall i :: 0 <= i < f ==> v.fields[i] == w.fields[i]
      invariant KidsMatch(v, w, count)
    {
      NameAt(mem[..], base + h.irOrNames, v.fields, f);
      var name := ReadName(mem, pos, v.fields[f]);
      if name != w.fields[f] {
        FieldsShape(v, w);
        return false;
      }
      ColumnNext(count, f, numFields, numElems, |v.children|);
      var column := CompareColumn(mem, base, h.jcOrKids, numElems, count, w, v);
      if !column {
        return false;
      }
      count := count + numElems;
      NamesGrow(v.fields, f);
      pos := pos + |name| + 1;
      f := f + 1;
    }
    assert v.fields == w.fields;
    ColumnEnd(count, f, numElems, |v.children|);
    AllMatch(v, w);
    return true;
  }

  method CompareCell(mem: array<byte>, base: nat, h: Header, w: Value, ghost v: Value) returns (same: bool)
    requires v.CellArray? && WellFormed(v) && Supported(v) && Size(v) < SIZE_MAX && Stored(mem[..], base, v)
    requires h == HeaderOf(v) && WellFormed(w) && w.CellArray? && w.dims == v.dims
    ensures same <==> SameShape(Norm(v), w)
    decreases v, 0
  {
    hide Stored, Size, Words, WellFormed, Supported, HeaderOf, Prod, KidsSize, KidsStart, Norm, SameShape, NamesSize, Names;
    HeaderTells(v);
    ChildCount(v);
    ChildCount(w);
    NormShape(v);
    if h.num != Prod(w.dims) {
      return false;
    }
    var count := 0;
    while count < h.num
      invariant count <= |v.children|
      invariant forall k :: 0 <= k < count ==> SameShape(Norm(v.children[k]), w.children[k])
    {
      KidWell(w, count);
      var at := KidBase(mem, base, h.jcOrKids, count, v);
      var kid := CompareHeaderSize(mem, at, w.children[count], v.children[count]);
      if !kid {
        KidsShape(v, w, count);
        return false;
      }
      count := count + 1;
    }
    TreeShape(v, w);
    return true;
  }

  // ----- what overwriting may touch -----

  ghost predicate PayloadCovers(rs: seq<Region>, i: int) {
    exists r :: r in rs && r.kind == Payload && r.at <= i < r.End()
  }

  // Only bytes of payloads have changed.
  ghost predicate PayloadsOnly(m: seq<byte>, m': seq<byte>, rs: seq<Region>) {
    |m'| == |m| && forall i :: 0 <= i < |m| && !PayloadCovers(rs, i) ==> m'[i] == m[i]
  }

  lemma PayloadsOnlyTrans(a: seq<byte>, b: seq<byte>, c: seq<byte>, rs: seq<Region>)
    requires PayloadsOnly(a, b, rs) && PayloadsOnly(b, c, rs)
    ensures PayloadsOnly(a, c, rs)
  {}

  lemma TouchesPayload(m: seq<byte>, m': seq<byte>, rs: seq<Region>, r: Region)
    requires SameOutside(m, m', r.at, r.End()) && r in rs && r.kind == Payload
    ensures PayloadsOnly(m, m', rs)
  {}

  // Different regions share no byte.
  lemma RegionsApart(rs: seq<Region>, lo: int, hi: int, q: Region, r: Region, i: int)
    requires Ordered(rs, lo, hi) && q in rs && r in rs && q != r
    ensures !(q.at <= i < q.End() && r.at <= i < r.End())
  {
    var j :| 0 <= j < |rs| && rs[j] == q;
    var k :| 0 <= k < |rs| && rs[k] == r;
    if j < k {
    } else {
    }
  }

  lemma OthersStay(m: seq<byte>, m': seq<byte>, rs: seq<Region>, lo: int, hi: int, r: Region)
    requires Ordered(rs, lo, hi) && PayloadsOnly(m, m', rs) && r in rs && r.kind != Payload && At(m, r.at, r.bytes)
    ensures At(m', r.at, r.bytes)
  {
    forall i | r.at <= i < r.End() ensures !PayloadCovers(rs, i) {
      forall q | q in rs && q.kind == Payload ensures !(q.at <= i < q.End()) {
        RegionsApart(rs, lo, hi, q, r, i);
      }
    }
    AtStays(m, m', r.at, r.bytes);
  }

  lemma ImageHeadStays(m: seq<byte>, m': seq<byte>, base: nat, v: Value, r: Region)
    requires Stored(m, base, v) && PayloadsOnly(m, m', Image(v, base)) && r in Image(v, base) && r.kind != Payload
    ensures At(m', r.at, r.bytes)
  {
    hide Image, Size;
    ImageOrdered(v, base);
    OthersStay(m, m', Image(v, base), base, base + Size(v), r);
  }

  // ----- values of one shape have one layout -----

  ghost predicate SameLengths(ps: seq<seq<byte>>, qs: seq<seq<byte>>) {
    |ps| == |qs| && forall k :: 0 <= k < |ps| ==> |ps[k]| == |qs[k]|
  }

  lemma {:induction false} BlocksEndSame(curr: nat, ps: seq<seq<byte>>, qs: seq<seq<byte>>)
    requires SameLengths(ps, qs)
    ensures BlocksEnd(curr, ps) == BlocksEnd(curr, qs)
  {
    hide Pad;
    if ps != [] {
      BlocksEndSame(curr, ps[..|ps| - 1], qs[..|qs| - 1]);
    }
  }

  lemma LeafSame(v: Value, w: Value)
    requires Leaf(v) && WellFormed(v) && WellFormed(w) && SameShape(Norm(v), w)
    ensures Leaf(w) && SameLengths(Payloads(v), Payloads(w)) && HeaderOf(v) == HeaderOf(w) && Size(v) == Size(w)
  {
    hide BlocksEnd, Prod, Pad;
    NormShape(v);
    BlocksEndSame(HeadSize(v.dims), Payloads(v), Payloads(w));
    forall k | 0 <= k < |Payloads(v)| ensures PayloadOff(v, k) == PayloadOff(w, k) {
      BlocksEndSame(HeadSize(v.dims), Payloads(v)[..k], Payloads(w)[..k]);
    }
  }

  lemma {:induction false} KidsSizeSame(vs: seq<Value>, ws: seq<Value>, n: nat)
    requires n <= |vs| == |ws| && forall k :: 0 <= k < |vs| ==> WellFormed(vs[k]) && WellFormed(ws[k]) && SameShape(Norm(vs[k]), ws[k])
    ensures KidsSize(vs[..n]) == KidsSize(ws[..n])
    decreases vs, 0, n
  {
    hide WellFormed, SameShape, Size, Norm, Pad, KidsSize;
    if n > 0 {
      SizeSame(vs[n - 1], ws[n - 1]);
      KidsSizeSame(vs, ws, n - 1);
      KidsSizeAt(vs, n - 1);
      KidsSizeAt(ws, n - 1);
    } else {
      assert vs[..n] == ws[..n];
    }
  }

  lemma TreeFacts(v: Value, w: Value)
    requires Tree(v) && WellFormed(v) && WellFormed(w) && SameShape(Norm(v), w)
    ensures Tree(w) && w.StructArray? == v.StructArray? && w.dims == v.dims && |w.children| == |v.children|
    ensures v.StructArray? ==> w.fields == v.fields
    ensures forall k :: 0 <= k < |v.children| ==> WellFormed(v.children[k]) && WellFormed(w.children[k]) && SameShape(Norm(v.children[k]), w.children[k])
  {
    hide Prod;
    NormShape(v);
  }

  // Values of the same shape take up the same room, and have the same header.
  lemma {:induction false} SizeSame(v: Value, w: Value)
    requires WellFormed(v) && WellFormed(w) && SameShape(Norm(v), w)
    ensures Size(v) == Size(w) && HeaderOf(v) == HeaderOf(w)
    ensures Tree(v) ==> Tree(w) && KidsStart(v) == KidsStart(w) && |w.children| == |v.children|
    ensures Tree(v) ==> forall k :: 0 <= k <= |v.children| ==> KidsSize(v.children[..k]) == KidsSize(w.children[..k])
    decreases v, 1
  {
    hide WellFormed, SameShape, Norm, Pad, KidsSize, BlocksEnd, Payloads, Prod, NamesSize;
    NotOtherShape(v, w);
    if Tree(v) {
      TreeFacts(v, w);
      forall k | 0 <= k <= |v.children| ensures KidsSize(v.children[..k]) == KidsSize(w.children[..k]) {
        KidsSizeSame(v.children, w.children, k);
      }
      assert v.children[..|v.children|] == v.children && w.children[..|v.children|] == w.children;
    } else {
      LeafSame(v, w);
    }
  }

  lemma NotOtherShape(v: Value, w: Value)
    requires SameShape(Norm(v), w)
    ensures !v.OtherArray?
  {}

  // ----- overwriting an array -----

  // Replacing one payload by another of the same length.
  lemma {:induction false} BlocksPut(m: seq<byte>, m': seq<byte>, base: nat, curr: nat, ps: seq<seq<byte>>, k: nat, bs: seq<byte>)
    requires k < |ps| && |bs| == |ps[k]| && AllAt(m, BlocksImage(base, curr, ps))
    requires
      var at := base + BlockStart(BlocksEnd(curr, ps[..k]));
      At(m', at, bs) && SameOutside(m, m', at, at + |bs|)
    ensures AllAt(m', BlocksImage(base, curr, ps[k := bs]))
    decreases |ps|
  {
    hide Pad, AllocHeader, BlocksEnd, BlocksImage, AllAt;
    var n := |ps| - 1;
    BlocksImageAt(base, curr, ps, n);
    assert ps[..n + 1] == ps;
    var mid := BlocksEnd(curr, ps[..n]);
    AllAtConcat(m, BlocksImage(base, curr, ps[..n]), BlockRegions(base, mid, ps[n]));
    var qs := ps[k := bs];
    if k == n {
      assert qs[..n] == ps[..n];
      LastPut(m, m', base, curr, ps, bs);
    } else {
      assert ps[..n][..k] == ps[..k] && ps[..n][k] == ps[k];
      assert qs[..n] == ps[..n][k := bs];
      BlocksPut(m, m', base, curr, ps[..n], k, bs);
      PayloadEnds(base, curr, ps, k);
      LastStays(m, m', base, mid, ps[n], base + BlockStart(BlocksEnd(curr, ps[..k])), base + mid);
    }
    BlocksEndSame(curr, ps[..n], qs[..n]);
    BlocksImageAt(base, curr, qs, n);
    assert qs[..n + 1] == qs;
    AllAtConcat(m', BlocksImage(base, curr, qs[..n]), BlockRegions(base, mid, qs[n]));
  }

  lemma LastPut(m: seq<byte>, m': seq<byte>, base: nat, curr: nat, ps: seq<seq<byte>>, bs: seq<byte>)
    requires ps != [] && |bs| == |ps[|ps| - 1]|
    requires
      var mid := BlocksEnd(curr, ps[..|ps| - 1]);
      && AllAt(m, BlocksImage(base, curr, ps[..|ps| - 1])) && AllAt(m, BlockRegions(base, mid, ps[|ps| - 1]))
      && At(m', base + BlockStart(mid), bs) && SameOutside(m, m', base + BlockStart(mid), base + BlockStart(mid) + |bs|)
    ensures AllAt(m', BlocksImage(base, curr, ps[..|ps| - 1])) && AllAt(m', BlockRegions(base, BlocksEnd(curr, ps[..|ps| - 1]), bs))
  {
    hide Pad, AllocHeader, BlocksEnd, BlocksImage;
    var n := |ps| - 1;
    var mid := BlocksEnd(curr, ps[..n]);
    BlocksOrdered(base, curr, ps[..n]);
    RegionsStay(m, m', BlocksImage(base, curr, ps[..n]), base + curr, base + mid);
    var last := BlockRegions(base, mid, ps[n]);
    assert last[0] in last;
    AtStays(m, m', last[0].at, last[0].bytes);
  }

  // A change before the room for a block leaves the block.
  lemma LastStays(m: seq<byte>, m': seq<byte>, base: nat, mid: nat, bs: seq<byte>, lo: int, hi: int)
    requires AllAt(m, BlockRegions(base, mid, bs)) && SameOutside(m, m', lo, hi) && hi <= base + mid
    ensures AllAt(m', BlockRegions(base, mid, bs))
  {
    hide AllocHeader;
    var last := BlockRegions(base, mid, bs);
    assert last[0] in last && last[1] in last;
    AtStays(m, m', last[0].at, last[0].bytes);
    AtStays(m, m', last[1].at, last[1].bytes);
  }

  // An earlier payload ends before the room for the last one begins.
  lemma PayloadEnds(base: nat, curr: nat, ps: seq<seq<byte>>, k: nat)
    requires k < |ps| - 1
    ensures BlockStart(BlocksEnd(curr, ps[..k])) + |ps[k]| <= BlocksEnd(curr, ps[..|ps| - 1])
  {
    hide Pad, AllocHeader, BlocksEnd;
    var p := ps[..|ps| - 1];
    assert p[..k] == ps[..k] && p[k] == ps[k];
    BlocksImageAt(base, curr, p, k);
    BlocksOrdered(base, curr, p);
    var rs := BlockRegions(base, BlocksEnd(curr, p[..k]), p[k]);
    assert rs[1] in rs;
  }

  // Memory lies as for `v`, with `ps` for its payloads.
  ghost predicate Holding(m: seq<byte>, base: nat, v: Value, ps: seq<seq<byte>>) {
    SameLengths(Payloads(v), ps) && AllAt(m, BlocksImage(base, HeadSize(v.dims), ps))
  }

  method PutPayload(mem: array<byte>, base: nat, off: nat, bs: seq<byte>, ghost v: Value, ghost ps: seq<seq<byte>>, ghost k: nat)
    requires Leaf(v) && k < |Payloads(v)| && off == PayloadOff(v, k) && |bs| == |Payloads(v)[k]|
    requires Holding(mem[..], base, v, ps)
    modifies mem
    ensures k < |ps| && Holding(mem[..], base, v, ps[k := bs])
    ensures PayloadsOnly(old(mem[..]), mem[..], Image(v, base))
  {
    hide Pad, BlocksImage, BlocksEnd, Payloads, AllAt, Image, Size;
    ghost var m0, head := mem[..], HeadSize(v.dims);
    BlocksEndSame(head, Payloads(v)[..k], ps[..k]);
    HeldPayload(m0, base, head, ps, k);
    Put(mem, base + off, bs);
    BlocksPut(m0, mem[..], base, head, ps, k, bs);
    ghost var r := PayloadRegion(v, base, k);
    TouchesPayload(m0, mem[..], Image(v, base), r);
  }

  lemma HeldPayload(m: seq<byte>, base: nat, curr: nat, ps: seq<seq<byte>>, k: nat)
    requires k < |ps| && AllAt(m, BlocksImage(base, curr, ps))
    ensures At(m, base + BlockStart(BlocksEnd(curr, ps[..k])), ps[k])
  {
    hide Pad, BlocksImage, BlocksEnd, AllocHeader;
    BlocksImageAt(base, curr, ps, k);
    var rs := BlockRegions(base, BlocksEnd(curr, ps[..k]), ps[k]);
    assert rs[1] in rs;
  }

  lemma PayloadRegion(v: Value, base: nat, k: nat) returns (r: Region)
    requires Leaf(v) && k < |Payloads(v)|
    ensures r == Region(base + PayloadOff(v, k), Payloads(v)[k], Payload) && r in Image(v, base)
  {
    hide Pad, BlocksImage, BlocksEnd, Payloads, Image, AllocHeader;
    var head := HeadSize(v.dims);
    BlocksImageAt(base, head, Payloads(v), k);
    var rs := BlockRegions(base, BlocksEnd(head, Payloads(v)[..k]), Payloads(v)[k]);
    r := rs[1];
    assert r in rs;
    InBody(v, base, r);
  }

  lemma StoredHolding(m: seq<byte>, base: nat, v: Value)
    requires Leaf(v) && Stored(m, base, v)
    ensures Holding(m, base, v, Payloads(v))
  {
    hide BlocksImage, Payloads, AllAt;
    StoredParts(m, base, v);
  }

  // The new payloads in place of the old ones make the new value.
  lemma HoldingStored(m: seq<byte>, m': seq<byte>, base: nat, v: Value, w: Value)
    requires Leaf(v) && Stored(m, base, v) && WellFormed(v) && WellFormed(w) && SameShape(Norm(v), w)
    requires PayloadsOnly(m, m', Image(v, base)) && Holding(m', base, v, Payloads(w))
    ensures Stored(m', base, w)
  {
    hide BlocksImage, Payloads, AllAt, Stored, WellFormed, Pack, HeaderOf, Words, Prod, BlocksEnd, PayloadsOnly;
    LeafSame(v, w);
    HeadKept(m, m', base, v);
    NormShape(v);
    StoredParts(m', base, w);
  }

  lemma HeadKept(m: seq<byte>, m': seq<byte>, base: nat, v: Value)
    requires Stored(m, base, v) && PayloadsOnly(m, m', Image(v, base))
    ensures At(m', base, Pack(HeaderOf(v))) && At(m', base + HEADER_SIZE, Words(v.dims))
  {
    hide Pack, HeaderOf, Words, Body, Stored, PayloadsOnly;
    var rs := Image(v, base);
    assert rs[0] in rs && rs[1] in rs;
    ImageHeadStays(m, m', base, v, rs[0]);
    ImageHeadStays(m, m', base, v, rs[1]);
  }

  method OverwriteSparse(mem: array<byte>, base: nat, h: Header, w: Value, ghost v: Value)
    requires v.SparseArray? && WellFormed(v) && Supported(v) && Size(v) < SIZE_MAX && Stored(mem[..], base, v) && h == HeaderOf(v)
    requires WellFormed(w) && SameShape(Norm(v), w)
    modifies mem
    ensures Stored(mem[..], base, w) && PayloadsOnly(old(mem[..]), mem[..], Image(v, base))
  {
    hide Stored, Size, Image, Holding, PayloadsOnly, PayloadOff, Prod, Blank, Fits, WellFormed, SameShape;
    ghost var m0, ps, rs, m1 := mem[..], Payloads(v), Image(v, base), mem[..];
    HeaderFits(v);
    LeafSame(v, w);
    SparseShape(v, w);
    StoredHolding(mem[..], base, v);
    ghost var c := if v.im.Some? then 1 else 0;
    PutPayload(mem, base, h.irOrNames, w.ir, v, ps, c + 1);
    ps := ps[c + 1 := w.ir];
    m1 := mem[..];
    PutPayload(mem, base, h.jcOrKids, w.jc, v, ps, c + 2);
    ps := ps[c + 2 := w.jc];
    PayloadsOnlyTrans(m0, m1, mem[..], rs);
    m1 := mem[..];
    PutPayload(mem, base, h.data, w.re, v, ps, 0);
    ps := ps[0 := w.re];
    PayloadsOnlyTrans(m0, m1, mem[..], rs);
    if h.imag != SIZE_MAX {
      m1 := mem[..];
      PutPayload(mem, base, h.imag, w.im.value, v, ps, 1);
      ps := ps[1 := w.im.value];
      PayloadsOnlyTrans(m0, m1, mem[..], rs);
    }
    assert ps == Payloads(w);
    HoldingStored(m0, mem[..], base, v, w);
  }

  lemma SparseShape(v: Value, w: Value)
    requires v.SparseArray? && SameShape(Norm(v), w)
    ensures w.SparseArray? && (w.im.Some? <==> v.im.Some?) && w.dims == v.dims
  {}

  method OverwriteFull(mem: array<byte>, base: nat, h: Header, w: Value, ghost v: Value)
    requires v.FullArray? && WellFormed(v) && Supported(v) && Size(v) < SIZE_MAX && Stored(mem[..], base, v) && h == HeaderOf(v)
    requires WellFormed(w) && SameShape(Norm(v), w)
    modifies mem
    ensures Stored(mem[..], base, w) && PayloadsOnly(old(mem[..]), mem[..], Image(v, base))
  {
    hide Stored, Size, Image, Holding, PayloadsOnly, PayloadOff, Prod, Blank, Fits, WellFormed, SameShape;
    ghost var m0, ps, rs, m1 := mem[..], Payloads(v), Image(v, base), mem[..];
    HeaderFits(v);
    HeaderTells(v);
    LeafSame(v, w);
    FullShape(v, w);
    StoredHolding(mem[..], base, v);
    NothingPut(m0, rs);
    if h.isEmpty == 0 {
      PutPayload(mem, base, h.data, w.re, v, ps, 0);
      ps := ps[0 := w.re];
      if h.imag != SIZE_MAX {
        m1 := mem[..];
        PutPayload(mem, base, h.imag, w.im.value, v, ps, 1);
        ps := ps[1 := w.im.value];
        PayloadsOnlyTrans(m0, m1, mem[..], rs);
      }
    }
    assert ps == Payloads(w);
    HoldingStored(m0, mem[..], base, v, w);
  }

  lemma FullShape(v: Value, w: Value)
    requires v.FullArray? && SameShape(Norm(v), w)
    ensures w.FullArray? && w.dims == v.dims && (w.im.Some? <==> !IsEmpty(v.dims) && v.im.Some?)
  {
    hide Prod;
  }

  lemma NothingPut(m: seq<byte>, rs: seq<Region>)
    ensures PayloadsOnly(m, m, rs)
  {}

  // ----- overwriting a tree -----

  ghost function KidAddress(base: nat, v: Value, k: nat): nat
    requires Tree(v) && k <= |v.children|
  {
    base + KidsStart(v) + KidsSize(v.children[..k])
  }

  // The first `n` children are new, the others old.
  ghost predicate Halfway(m: seq<byte>, base: nat, v: Value, w: Value, n: nat)
    requires Tree(v) && Tree(w)
  {
    && n <= |v.children| == |w.children|
    && (forall k :: 0 <= k < n ==> Stored(m, KidAddress(base, v, k), w.children[k]))
    && (forall k :: n <= k < |v.children| ==> Stored(m, KidAddress(base, v, k), v.children[k]))
  }

  lemma HalfwayStart(m: seq<byte>, base: nat, v: Value, w: Value)
    requires Tree(v) && Tree(w) && |v.children| == |w.children| && Stored(m, base, v)
    ensures Halfway(m, base, v, w, 0)
  {
    hide Stored, KidsStart, KidsSize;
    forall k | 0 <= k < |v.children| ensures Stored(m, KidAddress(base, v, k), v.children[k]) {
      KidStored(m, base, v, k);
    }
  }

  lemma {:induction false} KidsSizeGrows(vs: seq<Value>, i: nat, j: nat)
    requires i <= j <= |vs|
    ensures KidsSize(vs[..i]) <= KidsSize(vs[..j])
    ensures i < j ==> KidsSize(vs[..i]) + Size(vs[i]) <= KidsSize(vs[..j])
    decreases j - i
  {
    hide KidsSize, Size;
    if i < j {
      KidsSizeAt(vs, i);
      KidsSizeGrows(vs, i + 1, j);
    }
  }

  // Overwriting child `n` leaves the others.
  lemma HalfwayStep(m: seq<byte>, m': seq<byte>, base: nat, v: Value, w: Value, n: nat)
    requires Tree(v) && Tree(w) && n < |v.children| && Halfway(m, base, v, w, n)
    requires forall k :: 0 <= k < |v.children| ==> Size(w.children[k]) == Size(v.children[k])
    requires PayloadsOnly(m, m', Image(v.children[n], KidAddress(base, v, n))) && Stored(m', KidAddress(base, v, n), w.children[n])
    ensures Halfway(m', base, v, w, n + 1)
  {
    hide Stored, KidsStart, KidsSize, Size, Image, PayloadsOnly;
    var at := KidAddress(base, v, n);
    OutsideKid(m, m', at, v.children[n]);
    forall k | 0 <= k < |v.children| && k != n
      ensures Stored(m', KidAddress(base, v, k), if k < n then w.children[k] else v.children[k])
    {
      var kid := if k < n then w.children[k] else v.children[k];
      if k < n {
        KidsSizeGrows(v.children, k, n);
      } else {
        KidsSizeGrows(v.children, n, k);
      }
      StoredStays(m, m', KidAddress(base, v, k), kid);
    }
  }

  lemma OutsideKid(m: seq<byte>, m': seq<byte>, at: nat, c: Value)
    requires PayloadsOnly(m, m', Image(c, at))
    ensures SameOutside(m, m', at, at + Size(c))
  {
    hide Image, Size;
    forall i | 0 <= i < |m| && PayloadCovers(Image(c, at), i) ensures at <= i < at + Size(c) {
      CoveredWithin(c, at, i);
    }
  }

  lemma {:induction false} KidsStored(m: seq<byte>, base: nat, ws: seq<Value>, n: nat)
    requires n <= |ws| && forall k :: 0 <= k < n ==> Stored(m, base + KidsSize(ws[..k]), ws[k])
    ensures AllAt(m, KidsImage(ws[..n], base))
  {
    hide KidsSize, Image;
    if n > 0 {
      KidsStored(m, base, ws, n - 1);
      KidsImageAt(ws, base, n - 1);
      AllAtConcat(m, KidsImage(ws[..n - 1], base), Image(ws[n - 1], base + KidsSize(ws[..n - 1])));
    }
  }

  // The old header, links and names, with the new children, make the new value.
  lemma HalfwayStored(m: seq<byte>, m': seq<byte>, base: nat, v: Value, w: Value)
    requires Tree(v) && WellFormed(v) && WellFormed(w) && SameShape(Norm(v), w)
    requires Stored(m, base, v) && PayloadsOnly(m, m', Image(v, base))
    requires Tree(w) && |w.children| == |v.children| && Halfway(m', base, v, w, |v.children|)
    ensures Stored(m', base, w)
  {
    hide Stored, KidsSize, KidsStart, Size, HeaderOf, Pack, Words, WellFormed, SameShape, PayloadsOnly, KidsImage, AllAt, Links, Halfway, Norm;
    SizeSame(v, w);
    TreeFacts(v, w);
    HeadKept(m, m', base, v);
    LinksKept(m, m', base, v);
    LinksSame(v, w, base);
    HalfwayKids(m', base, v, w);
    TreeStored(m', base, w);
  }

  lemma HalfwayKids(m: seq<byte>, base: nat, v: Value, w: Value)
    requires Tree(v) && Tree(w) && |w.children| == |v.children| && KidsStart(v) == KidsStart(w) && Halfway(m, base, v, w, |v.children|)
    requires forall k :: 0 <= k <= |v.children| ==> KidsSize(v.children[..k]) == KidsSize(w.children[..k])
    ensures AllAt(m, KidsImage(w.children, base + KidsStart(w)))
  {
    hide Stored, KidsSize, KidsStart, KidsImage, AllAt;
    assert w.children[..|w.children|] == w.children;
    forall k | 0 <= k < |w.children| ensures Stored(m, base + KidsStart(w) + KidsSize(w.children[..k]), w.children[k]) {
      assert Stored(m, KidAddress(base, v, k), w.children[k]);
    }
    KidsStored(m, base + KidsStart(w), w.children, |w.children|);
  }

  lemma TreeStored(m: seq<byte>, base: nat, w: Value)
    requires Tree(w) && At(m, base, Pack(HeaderOf(w))) && At(m, base + HEADER_SIZE, Words(w.dims))
    requires AllAt(m, Links(w, base)) && AllAt(m, KidsImage(w.children, base + KidsStart(w)))
    ensures Stored(m, base, w)
  {
    hide Stored, KidsStart, KidsImage, AllAt, Links, Pack, HeaderOf, Words;
    AllAtConcat(m, Links(w, base), KidsImage(w.children, base + KidsStart(w)));
    StoredParts(m, base, w);
  }

  lemma LinksKept(m: seq<byte>, m': seq<byte>, base: nat, v: Value)
    requires Tree(v) && Stored(m, base, v) && PayloadsOnly(m, m', Image(v, base))
    ensures AllAt(m', Links(v, base))
  {
    hide Stored, PayloadsOnly, Words, Names, Offsets, KidsStart, Image, KidsImage;
    forall r | r in Links(v, base) ensures At(m', r.at, r.bytes) {
      assert r in Body(v, base);
      InBody(v, base, r);
      ImageHeadStays(m, m', base, v, r);
    }
  }

  lemma LinksSame(v: Value, w: Value, base: nat)
    requires Tree(v) && Tree(w) && v.dims == w.dims && |v.children| == |w.children| && KidsStart(v) == KidsStart(w)
    requires v.StructArray? == w.StructArray? && (v.StructArray? ==> v.fields == w.fields)
    requires forall k :: 0 <= k <= |v.children| ==> KidsSize(v.children[..k]) == KidsSize(w.children[..k])
    ensures Links(v, base) == Links(w, base)
  {
    hide KidsSize, Words, Names, KidsStart;
    assert Offsets(KidsStart(v), v.children) == Offsets(KidsStart(w), w.children);
  }

  lemma KidPayloads(m: seq<byte>, m': seq<byte>, base: nat, v: Value, k: nat)
    requires Tree(v) && k < |v.children| && PayloadsOnly(m, m', Image(v.children[k], KidAddress(base, v, k)))
    ensures PayloadsOnly(m, m', Image(v, base))
  {
    hide KidsSize, KidsStart, Image, KidsImage, Links;
    var kid := Image(v.children[k], KidAddress(base, v, k));
    KidsImageAt(v.children, base + KidsStart(v), k);
    forall i | PayloadCovers(kid, i) ensures PayloadCovers(Image(v, base), i) {
      var r :| r in kid && r.kind == Payload && r.at <= i < r.End();
      assert r in Body(v, base);
      InBody(v, base, r);
    }
  }

  // Overwrites the value stored at `base` by one of the same shape.
  method OverwriteHeader(mem: array<byte>, base: nat, w: Value, ghost v: Value)
    requires WellFormed(v) && Supported(v) && Size(v) < SIZE_MAX && Stored(mem[..], base, v)
    requires WellFormed(w) && SameShape(Norm(v), w)
    modifies mem
    ensures Stored(mem[..], base, w)
    ensures PayloadsOnly(old(mem[..]), mem[..], Image(v, base))
    decreases v, 1
  {
    hide Stored, Size, Words, WellFormed, Supported, Norm, HeaderOf, Pack, Fits, Image, PayloadsOnly, SameShape;
    HeaderFits(v);
    StoredParts(mem[..], base, v);
    var h := ReadHeader(mem, base, HeaderOf(v));
    HeaderTells(v);
    NotOther(v);
    if FromCode(h.classId) == Struct {
      OverwriteStruct(mem, base, h, w, v);
    } else if FromCode(h.classId) == Cell {
      OverwriteCell(mem, base, h, w, v);
    } else if h.isSparse != 0 {
      OverwriteSparse(mem, base, h, w, v);
    } else {
      OverwriteFull(mem, base, h, w, v);
    }
  }

  // One child.
  method OverwriteKid(mem: array<byte>, base: nat, kids: nat, count: nat, w: Value, ghost v: Value, ghost m0: seq<byte>)
    requires Tree(v) && WellFormed(v) && Supported(v) && Size(v) < SIZE_MAX && kids == HeadSize(v.dims) && Stored(m0, base, v)
    requires WellFormed(w) && SameShape(Norm(v), w) && Tree(w) && |w.children| == |v.children| && count < |v.children|
    requires Halfway(mem[..], base, v, w, count) && PayloadsOnly(m0, mem[..], Image(v, base))
    modifies mem
    ensures Halfway(mem[..], base, v, w, count + 1) && PayloadsOnly(m0, mem[..], Image(v, base))
    decreases v, 0, 0
  {
    hide Stored, Size, Words, WellFormed, Supported, Norm, Image, PayloadsOnly, SameShape, KidsSize, KidsStart, Offsets, Links;
    ghost var m1 := mem[..];
    TreeFacts(v, w);
    KidFine(v, count);
    KidInside(v, count);
    LinksKept(m0, m1, base, v);
    var at := KidBaseOf(mem, base, kids, count, v);
    OverwriteHeader(mem, at, w.children[count], v.children[count]);
    forall k | 0 <= k < |v.children| ensures Size(w.children[k]) == Size(v.children[k]) {
      SizeSame(v.children[k], w.children[k]);
    }
    HalfwayStep(m1, mem[..], base, v, w, count);
    KidPayloads(m1, mem[..], base, v, count);
    PayloadsOnlyTrans(m0, m1, mem[..], Image(v, base));
  }

  // The address of a child, found through its stored offset.
  method KidBaseOf(mem: array<byte>, base: nat, kids: nat, k: nat, ghost v: Value) returns (at: nat)
    requires Tree(v) && Size(v) < SIZE_MAX && AllAt(mem[..], Links(v, base))
    requires k < |v.children| && kids == HeadSize(v.dims)
    ensures at == KidAddress(base, v, k)
  {
    hide Size, Words, KidsSize, KidsStart;
    KidInside(v, k);
    ghost var links := Links(v, base);
    assert links[0] in links;
    ghost var ws := Offsets(KidsStart(v), v.children);
    WordAt(mem[..], base + kids, ws, k);
    var off := ReadWord(mem, base + kids + k * 8, ws[k]);
    at := base + off;
  }

  method OverwriteStruct(mem: array<byte>, base: nat, h: Header, w: Value, ghost v: Value)
    requires v.StructArray? && WellFormed(v) && Supported(v) && Size(v) < SIZE_MAX && Stored(mem[..], base, v) && h == HeaderOf(v)
    requires WellFormed(w) && SameShape(Norm(v), w)
    modifies mem
    ensures Stored(mem[..], base, w) && PayloadsOnly(old(mem[..]), mem[..], Image(v, base))
    decreases v, 0, 1
  {
    hide Stored, Size, WellFormed, Supported, Norm, HeaderOf, Image, PayloadsOnly, SameShape, KidsStart, Halfway, Prod;
    ghost var m0 := mem[..];
    HeaderTells(v);
    ChildCount(v);
    TreeFacts(v, w);
    HalfwayStart(m0, base, v, w);
    NothingPut(m0, Image(v, base));
    var f, count := 0, 0;
    while f < h.numFields
      invariant f <= h.numFields && count == f * h.num <= |v.children|
      invariant Halfway(mem[..], base, v, w, count) && PayloadsOnly(m0, mem[..], Image(v, base))
    {
      ColumnFits(f, h.numFields, h.num);
      ghost var from := count;
      var idx := 0;
      while idx < h.num
        invariant idx <= h.num && count == from + idx
        invariant Halfway(mem[..], base, v, w, count) && PayloadsOnly(m0, mem[..], Image(v, base))
      {
        OverwriteKid(mem, base, h.jcOrKids, count, w, v, m0);
        idx, count := idx + 1, count + 1;
      }
      f := f + 1;
    }
    HalfwayStored(m0, mem[..], base, v, w);
  }

  method OverwriteCell(mem: array<byte>, base: nat, h: Header, w: Value, ghost v: Value)
    requires v.CellArray? && WellFormed(v) && Supported(v) && Size(v) < SIZE_MAX && Stored(mem[..], base, v) && h == HeaderOf(v)
    requires WellFormed(w) && SameShape(Norm(v), w)
    modifies mem
    ensures Stored(mem[..], base, w) && PayloadsOnly(old(mem[..]), mem[..], Image(v, base))
    decreases v, 0, 1
  {
    hide Stored, Size, WellFormed, Supported, Norm, HeaderOf, Image, PayloadsOnly, SameShape, KidsStart, Halfway, Prod;
    ghost var m0 := mem[..];
    HeaderTells(v);
    ChildCount(v);
    TreeFacts(v, w);
    HalfwayStart(m0, base, v, w);
    NothingPut(m0, Image(v, base));
    var count := 0;
    while count < h.num
      invariant count <= |v.children|
      invariant Halfway(mem[..], base, v, w, count) && PayloadsOnly(m0, mem[..], Image(v, base))
    {
      OverwriteKid(mem, base, h.jcOrKids, count, w, v, m0);
      count := count + 1;
    }
    HalfwayStored(m0, mem[..], base, v, w);
  }
}
