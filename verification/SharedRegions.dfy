/** The regions of a stored value: in order, disjoint, inside the bytes the value
    takes up, every payload aligned. */
module SharedRegions {
  import opened Bytes
  import opened SharedLayout

  // The regions lie one after the other between `lo` and `hi`.
  ghost predicate Ordered(rs: seq<Region>, lo: int, hi: int) {
    && lo <= hi
    && (forall i :: 0 <= i < |rs| ==> lo <= rs[i].at && rs[i].End() <= hi)
    && (forall i, j :: 0 <= i < j < |rs| ==> rs[i].End() <= rs[j].at)
  }

  lemma OrderedConcat(a: seq<Region>, b: seq<Region>, lo: int, mid: int, hi: int)
    requires Ordered(a, lo, mid) && Ordered(b, mid, hi)
    ensures Ordered(a + b, lo, hi)
  {}

  lemma {:induction false} BlocksOrdered(base: nat, curr: nat, ps: seq<seq<byte>>)
    ensures Ordered(BlocksImage(base, curr, ps), base + curr, base + BlocksEnd(curr, ps))
  {
    if ps != [] {
      var k := |ps| - 1;
      BlocksOrdered(base, curr, ps[..k]);
      var mid := BlocksEnd(curr, ps[..k]);
      var off := BlockStart(mid);
      var b := [Region(base + off - ALLOC_SIZE, AllocHeader(|ps[k]|), Alloc), Region(base + off, ps[k], Payload)];
      assert Ordered(b, base + mid, base + BlocksEnd(curr, ps));
      OrderedConcat(BlocksImage(base, curr, ps[..k]), b, base + curr, base + mid, base + BlocksEnd(curr, ps));
    }
  }

  lemma {:induction false} KidsOrdered(vs: seq<Value>, base: nat)
    ensures Ordered(KidsImage(vs, base), base, base + KidsSize(vs))
    decreases vs, 0
  {
    hide Image, Size, Pad;
    if vs != [] {
      var k := |vs| - 1;
      KidsOrdered(vs[..k], base);
      var at := base + KidsSize(vs[..k]);
      ImageOrdered(vs[k], at);
      OrderedConcat(KidsImage(vs[..k], base), Image(vs[k], at), base, at, base + KidsSize(vs));
    }
  }

  lemma HeadOrdered(v: Value, base: nat)
    ensures Ordered(Image(v, base)[..2], base, base + HeadSize(v.dims))
  {}

  lemma LinksOrdered(v: Value, base: nat)
    requires v.StructArray? || v.CellArray?
    ensures Ordered(Links(v, base), base + HeadSize(v.dims), base + KidsStart(v))
  {
    hide Words, Names, Offsets;
  }

  // The regions written for a value do not overlap and fill no more than its size.
  lemma {:induction false} ImageOrdered(v: Value, base: nat)
    ensures Ordered(Image(v, base), base, base + Size(v))
    decreases v, 1
  {
    hide Pad, HeaderOf, Pack, Words, Names, KidsImage, KidsSize, BlocksImage, BlocksEnd, Payloads, NamesSize, Offsets, Links, KidsStart, Ordered;
    var head := Image(v, base)[..2];
    var mid := base + HeadSize(v.dims);
    HeadOrdered(v, base);
    if v.StructArray? || v.CellArray? {
      var start := base + KidsStart(v);
      KidsOrdered(v.children, start);
      LinksOrdered(v, base);
      OrderedConcat(Links(v, base), KidsImage(v.children, start), mid, start, base + Size(v));
    } else {
      BlocksOrdered(base, HeadSize(v.dims), Payloads(v));
    }
    OrderedConcat(head, Body(v, base), base, mid, base + Size(v));
    assert Image(v, base) == head + Body(v, base);
  }

  // ----- alignment -----

  ghost predicate Aligned(rs: seq<Region>) {
    forall r :: r in rs && r.kind == Payload ==> r.at % 32 == 0
  }

  lemma {:induction false} BlocksAligned(base: nat, curr: nat, ps: seq<seq<byte>>)
    requires base % 32 == 0
    ensures Aligned(BlocksImage(base, curr, ps))
  {
    hide Pad, BlocksEnd, AllocHeader;
    if ps != [] {
      var k := |ps| - 1;
      BlocksAligned(base, curr, ps[..k]);
      assert (base + BlockStart(BlocksEnd(curr, ps[..k]))) % 32 == 0;
    }
  }

  lemma {:induction false} KidsSizeAligned(vs: seq<Value>)
    ensures KidsSize(vs) % 32 == 0
  {
    hide Size, Pad;
    if vs != [] {
      KidsSizeAligned(vs[..|vs| - 1]);
    }
  }

  lemma {:induction false} KidsAligned(vs: seq<Value>, base: nat)
    requires base % 32 == 0
    ensures Aligned(KidsImage(vs, base))
    decreases vs, 0
  {
    hide Image, Size, Pad, KidsSize;
    if vs != [] {
      var k := |vs| - 1;
      KidsAligned(vs[..k], base);
      KidsSizeAligned(vs[..k]);
      ImageAligned(vs[k], base + KidsSize(vs[..k]));
    }
  }

  // Payloads of a value stored at a multiple of 32 start at multiples of 32.
  lemma {:induction false} ImageAligned(v: Value, base: nat)
    requires base % 32 == 0
    ensures Aligned(Image(v, base))
    decreases v, 1
  {
    hide Pad, HeaderOf, Pack, Words, Names, KidsImage, KidsSize, BlocksImage, BlocksEnd, Payloads, NamesSize, Offsets;
    if v.StructArray? || v.CellArray? {
      assert (base + KidsStart(v)) % 32 == 0;
      KidsAligned(v.children, base + KidsStart(v));
    } else {
      BlocksAligned(base, HeadSize(v.dims), Payloads(v));
    }
  }

  // ----- framing -----

  // What is stored depends only on the bytes the value takes up.
  lemma StoredStays(m: seq<byte>, m': seq<byte>, base: nat, v: Value)
    requires Stored(m, base, v) && Same(m, m', base, base + Size(v))
    ensures Stored(m', base, v)
  {
    hide Image, Size;
    ImageOrdered(v, base);
    RegionsStay(m, m', Image(v, base), base, base + Size(v));
  }

  lemma RegionsStay(m: seq<byte>, m': seq<byte>, rs: seq<Region>, lo: int, hi: int)
    requires AllAt(m, rs) && Ordered(rs, lo, hi) && Same(m, m', lo, hi)
    ensures AllAt(m', rs)
  {
    forall r | r in rs ensures At(m', r.at, r.bytes) {
      AtStays(m, m', r.at, r.bytes);
    }
  }

  // No byte outside the value is covered by its image.
  lemma CoveredWithin(v: Value, base: nat, i: int)
    requires Covered(Image(v, base), i)
    ensures base <= i < base + Size(v)
  {
    hide Image, Size;
    ImageOrdered(v, base);
  }

  lemma AllAtConcat(m: seq<byte>, a: seq<Region>, b: seq<Region>)
    ensures AllAt(m, a + b) <==> AllAt(m, a) && AllAt(m, b)
  {
    if AllAt(m, a + b) {
      forall r | r in a ensures At(m, r.at, r.bytes) { assert r in a + b; }
      forall r | r in b ensures At(m, r.at, r.bytes) { assert r in a + b; }
    }
  }

  // ----- sizes of the children -----

  lemma {:induction false} KidsSizeAt(vs: seq<Value>, k: nat)
    requires k < |vs|
    ensures KidsSize(vs[..k + 1]) == KidsSize(vs[..k]) + Pad(Size(vs[k]))
    ensures KidsSize(vs[..k + 1]) <= KidsSize(vs)
    decreases |vs| - k
  {
    hide Size, Pad;
    assert vs[..k + 1][..k] == vs[..k];
    if k + 1 < |vs| {
      KidsSizeAt(vs, k + 1);
    } else {
      assert vs[..k + 1] == vs;
    }
  }

  // A child lies inside its parent.
  lemma KidInside(v: Value, k: nat)
    requires (v.StructArray? || v.CellArray?) && k < |v.children|
    ensures HeadSize(v.dims) + |v.children| * 8 <= KidsStart(v)
    ensures KidsStart(v) + KidsSize(v.children[..k]) + Size(v.children[k]) <= Size(v)
    ensures (KidsStart(v) + KidsSize(v.children[..k])) % 32 == 0
  {
    hide KidsSize, NamesSize, Pad;
    KidsSizeAt(v.children, k);
    KidsSizeAligned(v.children[..k]);
    SumAligned(KidsStart(v), KidsSize(v.children[..k]));
  }

  lemma SumAligned(a: nat, b: nat)
    requires a % 32 == 0 && b % 32 == 0
    ensures (a + b) % 32 == 0
  {}

  lemma {:induction false} KidsImageAt(vs: seq<Value>, base: nat, k: nat)
    requires k < |vs|
    ensures KidsImage(vs[..k + 1], base) == KidsImage(vs[..k], base) + Image(vs[k], base + KidsSize(vs[..k]))
    ensures forall r :: r in Image(vs[k], base + KidsSize(vs[..k])) ==> r in KidsImage(vs, base)
    decreases |vs|
  {
    hide Image, KidsSize;
    assert vs[..k + 1][..k] == vs[..k];
    if k + 1 < |vs| {
      assert vs[..|vs| - 1][..k] == vs[..k] && vs[..|vs| - 1][k] == vs[k];
      KidsImageAt(vs[..|vs| - 1], base, k);
    } else {
      assert vs[..k + 1] == vs;
    }
  }

  // Each child of a stored value is stored at its offset.
  lemma KidStored(m: seq<byte>, base: nat, v: Value, k: nat)
    requires (v.StructArray? || v.CellArray?) && k < |v.children| && Stored(m, base, v)
    ensures Stored(m, base + KidsStart(v) + KidsSize(v.children[..k]), v.children[k])
  {
    hide Image, KidsSize, KidsStart;
    var at := base + KidsStart(v) + KidsSize(v.children[..k]);
    KidRegions(v, base, k, at);
  }

  lemma KidRegions(v: Value, base: nat, k: nat, at: nat)
    requires (v.StructArray? || v.CellArray?) && k < |v.children| && at == base + KidsStart(v) + KidsSize(v.children[..k])
    ensures forall r :: r in Image(v.children[k], at) ==> r in Image(v, base)
  {
    hide KidsImage, KidsSize, KidsStart, Links, Pack, HeaderOf, Words;
    KidsImageAt(v.children, base + KidsStart(v), k);
    var kids := KidsImage(v.children, base + KidsStart(v));
    assert Body(v, base) == Links(v, base) + kids;
    forall r | r in Image(v.children[k], at) ensures r in Image(v, base) {
      assert r in kids;
      assert r in Body(v, base);
    }
  }
}
