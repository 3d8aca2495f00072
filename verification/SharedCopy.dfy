/** Writing a value into shared memory. */
module SharedCopy {
  import opened Bytes
  import opened Products
  import opened SharedLayout
  import opened SharedRegions
  import opened SharedSize

  // ----- header fields -----

  datatype Field = DataField | ImagField | IrField | JcField | NumField

  function FieldPos(f: Field): nat {
    match f
    case DataField => 0
    case ImagField => 8
    case IrField => 16
    case JcField => 24
    case NumField => 48
  }

  function WithField(h: Header, f: Field, w: nat): Header {
    match f
    case DataField => h.(data := w)
    case ImagField => h.(imag := w)
    case IrField => h.(irOrNames := w)
    case JcField => h.(jcOrKids := w)
    case NumField => h.(num := w)
  }

  lemma PackField(h: Header, f: Field, w: nat)
    ensures forall i :: 0 <= i < HEADER_SIZE ==>
      Pack(WithField(h, f, w))[i] == if FieldPos(f) <= i < FieldPos(f) + 8 then Encode(w, 8)[i - FieldPos(f)] else Pack(h)[i]
  {
    hide Encode;
  }

  // Setting a field of the header in memory.
  method SetField(mem: array<byte>, base: nat, f: Field, w: nat, ghost h: Header)
    requires At(mem[..], base, Pack(h))
    modifies mem
    ensures At(mem[..], base, Pack(WithField(h, f, w)))
    ensures SameOutside(old(mem[..]), mem[..], base, base + HEADER_SIZE)
  {
    hide Pack, Encode;
    ghost var m := mem[..];
    Put(mem, base + FieldPos(f), Encode(w, 8));
    ghost var m' := mem[..];
    PackField(h, f, w);
    ghost var bs := Pack(WithField(h, f, w));
    forall i | 0 <= i < HEADER_SIZE ensures m'[base + i] == bs[i] {
      if FieldPos(f) <= i < FieldPos(f) + 8 {
        assert m'[base + FieldPos(f)..base + FieldPos(f) + 8][i - FieldPos(f)] == m'[base + i];
      } else {
        assert m[base..base + HEADER_SIZE][i] == m[base + i];
      }
    }
    assert m'[base..base + HEADER_SIZE] == bs;
  }

  // ----- what is touched -----

  // Only bytes that the regions cover have changed.
  ghost predicate Untouched(m: seq<byte>, m': seq<byte>, rs: seq<Region>) {
    |m'| == |m| && forall i :: 0 <= i < |m| && !Covered(rs, i) ==> m'[i] == m[i]
  }

  lemma UntouchedTrans(a: seq<byte>, b: seq<byte>, c: seq<byte>, rs: seq<Region>)
    requires Untouched(a, b, rs) && Untouched(b, c, rs)
    ensures Untouched(a, c, rs)
  {}

  // Writing inside a region touches no more than the regions.
  lemma TouchesRegion(m: seq<byte>, m': seq<byte>, rs: seq<Region>, r: Region, lo: int, hi: int)
    requires SameOutside(m, m', lo, hi) && r in rs && r.at <= lo && hi <= r.End()
    ensures Untouched(m, m', rs)
  {
    forall i | 0 <= i < |m| && !Covered(rs, i) ensures m'[i] == m[i] {
      if lo <= i < hi {
        assert Covered(rs, i);
      }
    }
  }

  // ----- arrays -----

  function Leaf(v: Value): bool {
    v.FullArray? || v.SparseArray?
  }

  function BlockRegions(base: nat, curr: nat, bs: seq<byte>): seq<Region> {
    [Region(base + BlockStart(curr) - ALLOC_SIZE, AllocHeader(|bs|), Alloc), Region(base + BlockStart(curr), bs, Payload)]
  }

  lemma {:induction false} BlocksImageAt(base: nat, curr: nat, ps: seq<seq<byte>>, k: nat)
    requires k < |ps|
    ensures BlocksImage(base, curr, ps[..k + 1]) == BlocksImage(base, curr, ps[..k]) + BlockRegions(base, BlocksEnd(curr, ps[..k]), ps[k])
    ensures forall r :: r in BlockRegions(base, BlocksEnd(curr, ps[..k]), ps[k]) ==> r in BlocksImage(base, curr, ps)
    ensures BlocksEnd(curr, ps[..k + 1]) == BlockEnd(BlocksEnd(curr, ps[..k]), |ps[k]|)
    decreases |ps|
  {
    hide BlocksEnd, AllocHeader, Pad;
    var p := ps[..|ps| - 1];
    assert ps[..k + 1][..k] == ps[..k];
    BlocksEndNext(curr, ps[..k], ps[k]);
    assert ps[..k] + [ps[k]] == ps[..k + 1];
    if k + 1 < |ps| {
      assert p[..k] == ps[..k] && p[k] == ps[k];
      BlocksImageAt(base, curr, p, k);
    } else {
      assert ps[..k + 1] == ps;
    }
  }

  // The header, the dimensions and the first `k` payloads are in place.
  ghost predicate Filled(m: seq<byte>, base: nat, v: Value, h: Header, k: nat) {
    && At(m, base, Pack(h)) && At(m, base + HEADER_SIZE, Words(v.dims))
    && k <= |Payloads(v)| && AllAt(m, BlocksImage(base, HeadSize(v.dims), Payloads(v)[..k]))
  }

  // Room for the allocation header, the offset, the allocation header, the
  // payload.
  method AddPayload(mem: array<byte>, base: nat, curr: nat, f: Field, bs: seq<byte>, ghost v: Value, ghost h: Header, ghost k: nat)
    returns (next: nat)
    requires Leaf(v) && k < |Payloads(v)| && Payloads(v)[k] == bs && base + Size(v) <= mem.Length
    requires curr == BlocksEnd(HeadSize(v.dims), Payloads(v)[..k])
    requires Filled(mem[..], base, v, h, k)
    modifies mem
    ensures Filled(mem[..], base, v, WithField(h, f, PayloadOff(v, k)), k + 1)
    ensures next == BlocksEnd(HeadSize(v.dims), Payloads(v)[..k + 1])
    ensures Untouched(old(mem[..]), mem[..], Image(v, base))
  {
    hide Pad, Pack, AllocHeader, BlocksImage, BlocksEnd, Payloads, WithField, HeaderOf, Words, Image, Size;
    ghost var ps := Payloads(v);
    ghost var m0 := mem[..];
    PayloadPlace(v, base, k);
    var off := Pad(curr + ALLOC_SIZE);
    SetField(mem, base, f, off, h);
    ghost var m1 := mem[..];
    Put(mem, base + off - ALLOC_SIZE, AllocHeader(|bs|));
    ghost var m2 := mem[..];
    Put(mem, base + off, bs);
    ghost var m3 := mem[..];
    next := off + Pad(|bs|);
    PayloadFilled(m0, m1, m2, m3, base, v, h, WithField(h, f, off), k);
    PayloadTouches(m0, m1, m2, m3, base, v, k);
  }

  lemma InBody(v: Value, base: nat, r: Region)
    requires r in Body(v, base)
    ensures r in Image(v, base)
  {}

  // Where payload `k` lies: after the earlier ones, inside the value.
  lemma PayloadPlace(v: Value, base: nat, k: nat)
    requires Leaf(v) && k < |Payloads(v)|
    ensures
      var curr := BlocksEnd(HeadSize(v.dims), Payloads(v)[..k]);
      && HeadSize(v.dims) <= curr && curr + ALLOC_SIZE <= BlockStart(curr) == PayloadOff(v, k)
      && BlockStart(curr) + |Payloads(v)[k]| <= Size(v)
      && BlocksEnd(HeadSize(v.dims), Payloads(v)[..k + 1]) == BlockEnd(curr, |Payloads(v)[k]|)
      && Ordered(BlocksImage(base, HeadSize(v.dims), Payloads(v)[..k]), base + HeadSize(v.dims), base + curr)
  {
    hide Pad, Payloads, AllocHeader, BlocksImage, BlocksEnd;
    var ps, head := Payloads(v), HeadSize(v.dims);
    BlocksImageAt(base, head, ps, k);
    BlocksOrdered(base, head, ps[..k]);
    BlocksOrdered(base, head, ps);
    var curr := BlocksEnd(head, ps[..k]);
    assert BlockRegions(base, curr, ps[k])[1] in BlocksImage(base, head, ps);
  }

  lemma PayloadFilled(m0: seq<byte>, m1: seq<byte>, m2: seq<byte>, m3: seq<byte>, base: nat, v: Value, h: Header, h': Header, k: nat)
    requires Leaf(v) && k < |Payloads(v)| && Filled(m0, base, v, h, k)
    requires At(m1, base, Pack(h')) && SameOutside(m0, m1, base, base + HEADER_SIZE)
    requires
      var off := PayloadOff(v, k);
      off >= ALLOC_SIZE &&
      var bs := Payloads(v)[k];
      && At(m2, base + off - ALLOC_SIZE, AllocHeader(|bs|)) && SameOutside(m1, m2, base + off - ALLOC_SIZE, base + off)
      && At(m3, base + off, bs) && SameOutside(m2, m3, base + off, base + off + |bs|)
    ensures Filled(m3, base, v, h', k + 1)
  {
    hide Pad, Pack, AllocHeader, BlocksImage, BlocksEnd, Payloads, Words;
    var ps, head := Payloads(v), HeadSize(v.dims);
    PayloadPlace(v, base, k);
    BlocksImageAt(base, head, ps, k);
    var curr := BlocksEnd(head, ps[..k]);
    AtStays(m0, m3, base + HEADER_SIZE, Words(v.dims));
    AtStays(m1, m3, base, Pack(h'));
    AtStays(m2, m3, base + PayloadOff(v, k) - ALLOC_SIZE, AllocHeader(|ps[k]|));
    RegionsStay(m0, m3, BlocksImage(base, head, ps[..k]), base + head, base + curr);
    AllAtConcat(m3, BlocksImage(base, head, ps[..k]), BlockRegions(base, curr, ps[k]));
  }

  lemma PayloadTouches(m0: seq<byte>, m1: seq<byte>, m2: seq<byte>, m3: seq<byte>, base: nat, v: Value, k: nat)
    requires Leaf(v) && k < |Payloads(v)|
    requires SameOutside(m0, m1, base, base + HEADER_SIZE)
    requires
      var off := PayloadOff(v, k);
      && off >= ALLOC_SIZE && SameOutside(m1, m2, base + off - ALLOC_SIZE, base + off)
      && SameOutside(m2, m3, base + off, base + off + |Payloads(v)[k]|)
    ensures Untouched(m0, m3, Image(v, base))
  {
    hide Pad, Pack, AllocHeader, BlocksImage, BlocksEnd, Payloads, Words, HeaderOf, Untouched;
    var ps, head := Payloads(v), HeadSize(v.dims);
    var rs := Image(v, base);
    BlocksImageAt(base, head, ps, k);
    var bs := BlockRegions(base, BlocksEnd(head, ps[..k]), ps[k]);
    assert bs[0] in bs && bs[1] in bs;
    InBody(v, base, bs[0]);
    InBody(v, base, bs[1]);
    assert rs[0] in rs;
    TouchesRegion(m0, m1, rs, rs[0], base, base + HEADER_SIZE);
    TouchesRegion(m1, m2, rs, bs[0], bs[0].at, bs[0].End());
    TouchesRegion(m2, m3, rs, bs[1], bs[1].at, bs[1].End());
    UntouchedTrans(m0, m1, m2, rs);
    UntouchedTrans(m0, m2, m3, rs);
  }

  // The header with no offset known yet, and the dimensions.
  method StartValue(mem: array<byte>, base: nat, v: Value) returns (curr: nat)
    requires base + HeadSize(v.dims) <= mem.Length
    modifies mem
    ensures curr == HeadSize(v.dims)
    ensures At(mem[..], base, Pack(Blank(v))) && At(mem[..], base + HEADER_SIZE, Words(v.dims))
    ensures Untouched(old(mem[..]), mem[..], Image(v, base))
  {
    hide Pack, Words, Blank, Body, HeaderOf, Untouched;
    ghost var m0, rs := mem[..], Image(v, base);
    Put(mem, base, Pack(Blank(v)));
    ghost var m1 := mem[..];
    Put(mem, base + HEADER_SIZE, Words(v.dims));
    AtStays(m1, mem[..], base, Pack(Blank(v)));
    curr := HEADER_SIZE + |v.dims| * 8;
    assert rs[0] in rs && rs[1] in rs;
    TouchesRegion(m0, m1, rs, rs[0], base, base + HEADER_SIZE);
    TouchesRegion(m1, mem[..], rs, rs[1], base + HEADER_SIZE, base + curr);
    UntouchedTrans(m0, m1, mem[..], rs);
  }

  lemma NoneFilled(m: seq<byte>, base: nat, v: Value, h: Header)
    requires At(m, base, Pack(h)) && At(m, base + HEADER_SIZE, Words(v.dims))
    ensures Filled(m, base, v, h, 0)
    ensures BlocksEnd(HeadSize(v.dims), Payloads(v)[..0]) == HeadSize(v.dims)
  {}

  lemma FilledStored(m: seq<byte>, base: nat, v: Value)
    requires Leaf(v) && Filled(m, base, v, HeaderOf(v), |Payloads(v)|)
    ensures Stored(m, base, v)
    ensures BlocksEnd(HeadSize(v.dims), Payloads(v)[..|Payloads(v)|]) == Size(v)
  {
    hide Pack, Words, HeaderOf, BlocksImage, BlocksEnd, Payloads, AllAt;
    assert Payloads(v)[..|Payloads(v)|] == Payloads(v);
    StoredParts(m, base, v);
  }

  lemma StoredParts(m: seq<byte>, base: nat, v: Value)
    ensures Stored(m, base, v) <==>
      At(m, base, Pack(HeaderOf(v))) && At(m, base + HEADER_SIZE, Words(v.dims)) && AllAt(m, Body(v, base))
  {
    hide Pack, Words, HeaderOf, Body;
    var head := [Region(base, Pack(HeaderOf(v)), Head), Region(base + HEADER_SIZE, Words(v.dims), Dims)];
    assert head[0] in head && head[1] in head;
    AllAtConcat(m, head, Body(v, base));
  }

  method CopyFull(mem: array<byte>, base: nat, start: nat, v: Value) returns (used: nat)
    requires v.FullArray? && base + Size(v) <= mem.Length && start == HeadSize(v.dims)
    requires At(mem[..], base, Pack(Blank(v))) && At(mem[..], base + HEADER_SIZE, Words(v.dims))
    modifies mem
    ensures used == Size(v) && Stored(mem[..], base, v)
    ensures Untouched(old(mem[..]), mem[..], Image(v, base))
  {
    hide Pack, Words, Image, Stored, Size, Filled, BlocksEnd, Prod, PayloadOff, Blank, Untouched;
    ghost var m0, h, rs := mem[..], Blank(v), Image(v, base);
    NoneFilled(mem[..], base, v, h);
    NoChange(m0, rs);
    used := start;
    if !IsEmpty(v.dims) {
      used := AddPayload(mem, base, used, DataField, v.re, v, h, 0);
      h := WithField(h, DataField, PayloadOff(v, 0));
      if v.im.Some? {
        ghost var m1 := mem[..];
        used := AddPayload(mem, base, used, ImagField, v.im.value, v, h, 1);
        h := WithField(h, ImagField, PayloadOff(v, 1));
        UntouchedTrans(m0, m1, mem[..], rs);
      }
    }
    FilledStored(mem[..], base, v);
  }

  lemma NoChange(m: seq<byte>, rs: seq<Region>)
    ensures Untouched(m, m, rs)
  {}

  // The header word shared by the number of elements and `nzmax` is set to the
  // latter.
  method CopySparse(mem: array<byte>, base: nat, start: nat, v: Value) returns (used: nat)
    requires v.SparseArray? && base + Size(v) <= mem.Length && start == HeadSize(v.dims)
    requires At(mem[..], base, Pack(Blank(v))) && At(mem[..], base + HEADER_SIZE, Words(v.dims))
    modifies mem
    ensures used == Size(v) && Stored(mem[..], base, v)
    ensures Untouched(old(mem[..]), mem[..], Image(v, base))
  {
    hide Pack, Words, Image, Stored, Size, Filled, BlocksEnd, Prod, PayloadOff, Blank, Untouched;
    ghost var m0, h, k, rs := mem[..], Blank(v), 0, Image(v, base);
    SetField(mem, base, NumField, v.nzmax, h);
    h := WithField(h, NumField, v.nzmax);
    AtStays(m0, mem[..], base + HEADER_SIZE, Words(v.dims));
    NoneFilled(mem[..], base, v, h);
    HeadTouched(m0, mem[..], base, v);
    ghost var m1 := mem[..];
    used := AddPayload(mem, base, start, DataField, v.re, v, h, 0);
    h := WithField(h, DataField, PayloadOff(v, 0));
    k := 1;
    UntouchedTrans(m0, m1, mem[..], rs);
    if v.im.Some? {
      m1 := mem[..];
      used := AddPayload(mem, base, used, ImagField, v.im.value, v, h, k);
      h := WithField(h, ImagField, PayloadOff(v, k));
      k := 2;
      UntouchedTrans(m0, m1, mem[..], rs);
    }
    m1 := mem[..];
    used := AddPayload(mem, base, used, IrField, v.ir, v, h, k);
    h := WithField(h, IrField, PayloadOff(v, k));
    UntouchedTrans(m0, m1, mem[..], rs);
    m1 := mem[..];
    used := AddPayload(mem, base, used, JcField, v.jc, v, h, k + 1);
    h := WithField(h, JcField, PayloadOff(v, k + 1));
    UntouchedTrans(m0, m1, mem[..], rs);
    FilledStored(mem[..], base, v);
  }

  lemma HeadTouched(m: seq<byte>, m': seq<byte>, base: nat, v: Value)
    requires SameOutside(m, m', base, base + HEADER_SIZE)
    ensures Untouched(m, m', Image(v, base))
  {
    hide Body, Pack, HeaderOf, Words;
    var rs := Image(v, base);
    assert rs[0] in rs;
    TouchesRegion(m, m', rs, rs[0], base, base + HEADER_SIZE);
  }

  // ----- structures and cells -----

  function Tree(v: Value): bool {
    v.StructArray? || v.CellArray?
  }

  function NamesOff(v: Value): nat
    requires Tree(v)
  {
    HeadSize(v.dims) + |v.children| * 8
  }

  // The header, the dimensions, the offsets of the first `k` children, the first
  // `f` field names and the first `k` children are in place.
  ghost predicate Linked(m: seq<byte>, base: nat, v: Value, k: nat, f: nat)
    requires Tree(v)
  {
    && k <= |v.children|
    && At(m, base, Pack(HeaderOf(v))) && At(m, base + HEADER_SIZE, Words(v.dims))
    && At(m, base + HeadSize(v.dims), Words(Offsets(KidsStart(v), v.children[..k])))
    && (v.StructArray? ==> f <= |v.fields| && At(m, base + NamesOff(v), Names(v.fields[..f])))
    && AllAt(m, KidsImage(v.children[..k], base + KidsStart(v)))
  }

  // The offset of a child, then the child itself.
  method AddKid(mem: array<byte>, base: nat, curr: nat, count: nat, v: Value, ghost f: nat) returns (next: nat)
    requires Tree(v) && WellFormed(v) && Supported(v) && base + Size(v) <= mem.Length
    requires count < |v.children| && curr == KidsStart(v) + KidsSize(v.children[..count])
    requires Linked(mem[..], base, v, count, f)
    modifies mem
    ensures next == KidsStart(v) + KidsSize(v.children[..count + 1])
    ensures Linked(mem[..], base, v, count + 1, f)
    ensures Untouched(old(mem[..]), mem[..], Image(v, base))
    decreases v, 0
  {
    hide Pad, KidsSize, KidsStart, Linked, Image, Size, Encode, Stored, Untouched, WellFormed, Supported;
    ghost var m0 := mem[..];
    KidInside(v, count);
    KidFine(v, count);
    Put(mem, base + HeadSize(v.dims) + count * 8, Encode(curr, 8));
    ghost var m1 := mem[..];
    var used := CopyVariable(mem, base + curr, v.children[count]);
    next := curr + Pad(used);
    KidsSizeAt(v.children, count);
    KidLinked(m0, m1, mem[..], base, v, count, f);
    KidTouches(m0, m1, mem[..], base, v, count);
  }

  lemma KidFine(v: Value, k: nat)
    requires Tree(v) && WellFormed(v) && Supported(v) && k < |v.children|
    ensures WellFormed(v.children[k]) && Supported(v.children[k])
  {}

  lemma OffsetsNext(start: nat, vs: seq<Value>, k: nat)
    requires k < |vs|
    ensures Words(Offsets(start, vs[..k + 1])) == Words(Offsets(start, vs[..k])) + Encode(start + KidsSize(vs[..k]), 8)
  {
    hide KidsSize;
    assert vs[..k + 1][..k] == vs[..k];
    var ws := Offsets(start, vs[..k + 1]);
    assert ws[..k] == Offsets(start, vs[..k]);
  }

  // What a child's copy leaves alone.
  lemma KidApart(m1: seq<byte>, m2: seq<byte>, at: nat, c: Value)
    requires Untouched(m1, m2, Image(c, at))
    ensures SameOutside(m1, m2, at, at + Size(c))
  {
    hide Image, Size;
    forall i | 0 <= i < |m1| && !(at <= i < at + Size(c)) ensures m2[i] == m1[i] {
      if Covered(Image(c, at), i) {
        CoveredWithin(c, at, i);
      }
    }
  }

  lemma KidLinked(m0: seq<byte>, m1: seq<byte>, m2: seq<byte>, base: nat, v: Value, k: nat, f: nat)
    requires Tree(v) && k < |v.children| && Linked(m0, base, v, k, f)
    requires
      var curr := KidsStart(v) + KidsSize(v.children[..k]);
      && At(m1, base + HeadSize(v.dims) + k * 8, Encode(curr, 8))
      && SameOutside(m0, m1, base + HeadSize(v.dims) + k * 8, base + HeadSize(v.dims) + k * 8 + 8)
      && Untouched(m1, m2, Image(v.children[k], base + curr)) && Stored(m2, base + curr, v.children[k])
    ensures Linked(m2, base, v, k + 1, f)
  {
    hide Pad, KidsSize, KidsStart, Image, Size, Pack, HeaderOf, Words, Names, Offsets, KidsImage, Untouched, NamesSize, Encode, Linked;
    var curr := KidsStart(v) + KidsSize(v.children[..k]);
    LinkedNames(m0, base, v, k, f);
    StartAfterNames(v, f);
    KidInside(v, k);
    KidApart(m1, m2, base + curr, v.children[k]);
    LinkedStays(m0, m2, base, v, k, f);
    AtStays(m1, m2, base + HeadSize(v.dims) + k * 8, Encode(curr, 8));
    KidAdded(m2, base, v, k, f);
  }

  lemma LinkedNames(m: seq<byte>, base: nat, v: Value, k: nat, f: nat)
    requires Tree(v) && Linked(m, base, v, k, f)
    ensures v.StructArray? ==> f <= |v.fields|
  {}

  // What `Linked` depends on.
  lemma LinkedStays(m: seq<byte>, m': seq<byte>, base: nat, v: Value, k: nat, f: nat)
    requires Tree(v) && k <= |v.children| && Linked(m, base, v, k, f)
    requires Same(m, m', base, base + HeadSize(v.dims) + k * 8)
    requires v.StructArray? && f <= |v.fields| ==> Same(m, m', base + NamesOff(v), base + NamesOff(v) + NamesSize(v.fields[..f]))
    requires Same(m, m', base + KidsStart(v), base + KidsStart(v) + KidsSize(v.children[..k]))
    ensures Linked(m', base, v, k, f)
  {
    hide Pad, KidsSize, KidsStart, Pack, HeaderOf, Words, Names, Offsets, KidsImage, NamesSize;
    var start := KidsStart(v);
    AtStays(m, m', base, Pack(HeaderOf(v)));
    AtStays(m, m', base + HEADER_SIZE, Words(v.dims));
    AtStays(m, m', base + HeadSize(v.dims), Words(Offsets(start, v.children[..k])));
    if v.StructArray? {
      AtStays(m, m', base + NamesOff(v), Names(v.fields[..f]));
    }
    KidsOrdered(v.children[..k], base + start);
    RegionsStay(m, m', KidsImage(v.children[..k], base + start), base + start, base + start + KidsSize(v.children[..k]));
  }

  lemma KidAdded(m: seq<byte>, base: nat, v: Value, k: nat, f: nat)
    requires Tree(v) && k < |v.children| && Linked(m, base, v, k, f)
    requires
      var curr := KidsStart(v) + KidsSize(v.children[..k]);
      At(m, base + HeadSize(v.dims) + k * 8, Encode(curr, 8)) && Stored(m, base + curr, v.children[k])
    ensures Linked(m, base, v, k + 1, f)
  {
    hide Pad, KidsSize, KidsStart, Image, Size, Pack, HeaderOf, Words, Names, Offsets, KidsImage, NamesSize, Encode, AllAt;
    var start := KidsStart(v);
    var curr := start + KidsSize(v.children[..k]);
    OffsetsNext(start, v.children, k);
    AtAppend(m, base + HeadSize(v.dims), Words(Offsets(start, v.children[..k])), Encode(curr, 8));
    KidsImageAt(v.children, base + start, k);
    AllAtConcat(m, KidsImage(v.children[..k], base + start), Image(v.children[k], base + curr));
  }

  lemma StartAfterNames(v: Value, f: nat)
    requires Tree(v)
    ensures NamesOff(v) <= KidsStart(v)
    ensures v.StructArray? && f <= |v.fields| ==> NamesOff(v) + NamesSize(v.fields[..f]) <= KidsStart(v)
    ensures v.StructArray? && f < |v.fields| ==> NamesSize(v.fields[..f + 1]) == NamesSize(v.fields[..f]) + |v.fields[f]| + 1
  {
    hide NamesSize;
    if v.StructArray? && f <= |v.fields| {
      NamesGrow(v.fields, f);
    }
  }

  lemma {:induction false} NamesGrow(fields: seq<seq<byte>>, f: nat)
    requires f <= |fields|
    ensures NamesSize(fields[..f]) <= NamesSize(fields)
    ensures f < |fields| ==> NamesSize(fields[..f + 1]) == NamesSize(fields[..f]) + |fields[f]| + 1
    ensures f < |fields| ==> Names(fields[..f + 1]) == Names(fields[..f]) + fields[f] + [0]
    decreases |fields| - f
  {
    if f < |fields| {
      assert fields[..f + 1][..f] == fields[..f];
      NamesGrow(fields, f + 1);
    } else {
      assert fields[..f] == fields;
    }
  }

  lemma KidTouches(m0: seq<byte>, m1: seq<byte>, m2: seq<byte>, base: nat, v: Value, k: nat)
    requires Tree(v) && k < |v.children|
    requires SameOutside(m0, m1, base + HeadSize(v.dims) + k * 8, base + HeadSize(v.dims) + k * 8 + 8)
    requires Untouched(m1, m2, Image(v.children[k], base + KidsStart(v) + KidsSize(v.children[..k])))
    ensures Untouched(m0, m2, Image(v, base))
  {
    hide Pad, KidsSize, KidsStart, Size, Pack, HeaderOf, Words, Names, Offsets, KidsImage, NamesSize;
    var rs, start := Image(v, base), base + KidsStart(v);
    var kid := Image(v.children[k], start + KidsSize(v.children[..k]));
    var links := Links(v, base);
    assert links[0] in links && links[0] in Body(v, base);
    InBody(v, base, links[0]);
    TouchesRegion(m0, m1, rs, links[0], links[0].at + k * 8, links[0].at + k * 8 + 8);
    KidsImageAt(v.children, start, k);
    CoverGrows(m1, m2, kid, rs, v, base);
    UntouchedTrans(m0, m1, m2, rs);
  }

  lemma CoverGrows(m1: seq<byte>, m2: seq<byte>, kid: seq<Region>, rs: seq<Region>, v: Value, base: nat)
    requires Tree(v) && rs == Image(v, base) && Untouched(m1, m2, kid)
    requires forall r :: r in kid ==> r in KidsImage(v.children, base + KidsStart(v))
    ensures Untouched(m1, m2, rs)
  {
    hide KidsImage, KidsStart, Image, Pad, Links;
    forall i | Covered(kid, i) ensures Covered(rs, i) {
      var r :| r in kid && r.at <= i < r.End();
      assert r in Body(v, base);
      InBody(v, base, r);
    }
  }

  // A field name and its terminating zero, after the names before it.
  method AddName(mem: array<byte>, base: nat, dest: nat, v: Value, f: nat, ghost k: nat) returns (next: nat)
    requires v.StructArray? && f < |v.fields| && base + Size(v) <= mem.Length && base + KidsStart(v) <= mem.Length
    requires dest == NamesOff(v) + NamesSize(v.fields[..f])
    requires Linked(mem[..], base, v, k, f)
    modifies mem
    ensures next == NamesOff(v) + NamesSize(v.fields[..f + 1])
    ensures Linked(mem[..], base, v, k, f + 1)
    ensures Untouched(old(mem[..]), mem[..], Image(v, base))
  {
    hide Pad, Pack, HeaderOf, Words, Names, Offsets, KidsImage, NamesSize, KidsStart, KidsSize, Size, Untouched, Linked;
    ghost var m0 := mem[..];
    StartAfterNames(v, f);
    StartAfterNames(v, f + 1);
    Put(mem, base + dest, v.fields[f] + [0]);
    next := dest + |v.fields[f]| + 1;
    ghost var m1 := mem[..];
    LinkedKids(m0, base, v, k, f);
    LinkedStays(m0, m1, base, v, k, f);
    NameAdded(m1, base, v, k, f);
    NameTouches(m0, m1, base, v, f, dest);
  }

  lemma LinkedKids(m: seq<byte>, base: nat, v: Value, k: nat, f: nat)
    requires Tree(v) && Linked(m, base, v, k, f)
    ensures k <= |v.children|
  {}

  lemma NameAdded(m: seq<byte>, base: nat, v: Value, k: nat, f: nat)
    requires v.StructArray? && f < |v.fields| && Linked(m, base, v, k, f)
    requires At(m, base + NamesOff(v) + NamesSize(v.fields[..f]), v.fields[f] + [0])
    ensures Linked(m, base, v, k, f + 1)
  {
    hide Pad, KidsSize, KidsStart, Pack, HeaderOf, Words, Names, Offsets, KidsImage, NamesSize, AllAt;
    NamesGrow(v.fields, f);
    AtAppend(m, base + NamesOff(v), Names(v.fields[..f]), v.fields[f] + [0]);
    assert Names(v.fields[..f]) + v.fields[f] + [0] == Names(v.fields[..f]) + (v.fields[f] + [0]);
  }

  lemma NameTouches(m0: seq<byte>, m1: seq<byte>, base: nat, v: Value, f: nat, dest: nat)
    requires v.StructArray? && f < |v.fields| && dest == NamesOff(v) + NamesSize(v.fields[..f])
    requires SameOutside(m0, m1, base + dest, base + dest + |v.fields[f]| + 1)
    ensures Untouched(m0, m1, Image(v, base))
  {
    hide Pad, Pack, HeaderOf, Words, Names, Offsets, KidsImage, NamesSize, KidsStart, KidsSize, Untouched;
    var rs, links := Image(v, base), Links(v, base);
    NamesGrow(v.fields, f);
    NamesGrow(v.fields, f + 1);
    assert links[1] in links && links[1] in Body(v, base);
    InBody(v, base, links[1]);
    TouchesRegion(m0, m1, rs, links[1], base + dest, base + dest + |v.fields[f]| + 1);
  }

  // Writes `v` at `base` and returns the number of bytes it takes up.
  method CopyVariable(mem: array<byte>, base: nat, v: Value) returns (used: nat)
    requires WellFormed(v) && Supported(v) && base + Size(v) <= mem.Length
    modifies mem
    ensures used == Size(v)
    ensures Stored(mem[..], base, v)
    ensures Untouched(old(mem[..]), mem[..], Image(v, base))
    decreases v, 2
  {
    hide Pad, Size, Image, Stored, Untouched, WellFormed, Supported, Blank, Pack, Words;
    ghost var m0 := mem[..];
    HeadInside(v);
    used := StartValue(mem, base, v);
    ghost var m1 := mem[..];
    if v.StructArray? {
      used := CopyStruct(mem, base, used, v);
    } else if v.CellArray? {
      used := CopyCell(mem, base, used, v);
    } else if v.SparseArray? {
      used := CopySparse(mem, base, used, v);
    } else {
      NotOther(v);
      used := CopyFull(mem, base, used, v);
    }
    UntouchedTrans(m0, m1, mem[..], Image(v, base));
  }

  lemma NotOther(v: Value)
    requires Supported(v)
    ensures !v.OtherArray?
  {}

  lemma HeadInside(v: Value)
    ensures HeadSize(v.dims) <= Size(v)
    ensures Tree(v) ==> NamesOff(v) <= KidsStart(v) <= Size(v)
  {
    hide Pad, Payloads, BlocksImage, BlocksEnd, NamesSize;
    if Tree(v) {
      StartAfterNames(v, 0);
    } else {
      BlocksOrdered(0, HeadSize(v.dims), Payloads(v));
    }
  }

  lemma NoneLinked(m: seq<byte>, base: nat, v: Value)
    requires Tree(v) && At(m, base, Pack(HeaderOf(v))) && At(m, base + HEADER_SIZE, Words(v.dims)) && base + KidsStart(v) <= |m|
    ensures Linked(m, base, v, 0, 0)
    ensures KidsSize(v.children[..0]) == 0
    ensures v.StructArray? ==> NamesSize(v.fields[..0]) == 0
  {
    hide Pack, Pad;
  }

  lemma LinkedStored(m: seq<byte>, base: nat, v: Value)
    requires Tree(v) && Linked(m, base, v, |v.children|, if v.StructArray? then |v.fields| else 0)
    ensures Stored(m, base, v)
  {
    hide Pad, Pack, HeaderOf, Words, Names, Offsets, KidsImage, NamesSize, KidsStart, KidsSize;
    assert v.children[..|v.children|] == v.children;
    if v.StructArray? {
      assert v.fields[..|v.fields|] == v.fields;
    }
    AllAtConcat(m, Links(v, base), KidsImage(v.children, base + KidsStart(v)));
    StoredParts(m, base, v);
  }

  // The offsets of the child offsets and of the field names.
  method StartStruct(mem: array<byte>, base: nat, start: nat, v: Value) returns (names: nat)
    requires v.StructArray? && WellFormed(v) && base + Size(v) <= mem.Length && start == HeadSize(v.dims)
    requires At(mem[..], base, Pack(Blank(v))) && At(mem[..], base + HEADER_SIZE, Words(v.dims))
    modifies mem
    ensures names == NamesOff(v)
    ensures Linked(mem[..], base, v, 0, 0) && Untouched(old(mem[..]), mem[..], Image(v, base))
  {
    hide Pad, Image, Untouched, WellFormed, Blank, Pack, Words, Linked, Prod, Size, KidsStart, KidsSize;
    ghost var m0 := mem[..];
    ChildCount(v);
    HeadInside(v);
    SetField(mem, base, JcField, start, Blank(v));
    ghost var m1 := mem[..];
    names := start + |v.fields| * Prod(v.dims) * 8;
    SetField(mem, base, IrField, names, WithField(Blank(v), JcField, start));
    HeadTouched(m0, m1, base, v);
    HeadTouched(m1, mem[..], base, v);
    UntouchedTrans(m0, m1, mem[..], Image(v, base));
    AtStays(m0, mem[..], base + HEADER_SIZE, Words(v.dims));
    NoneLinked(mem[..], base, v);
  }

  method CopyStruct(mem: array<byte>, base: nat, start: nat, v: Value) returns (used: nat)
    requires v.StructArray? && WellFormed(v) && Supported(v) && base + Size(v) <= mem.Length && start == HeadSize(v.dims)
    requires At(mem[..], base, Pack(Blank(v))) && At(mem[..], base + HEADER_SIZE, Words(v.dims))
    modifies mem
    ensures used == Size(v) && Stored(mem[..], base, v)
    ensures Untouched(old(mem[..]), mem[..], Image(v, base))
    decreases v, 1
  {
    hide Pad, Image, Stored, Untouched, WellFormed, Supported, Blank, Pack, Words, Linked, KidsSize, NamesSize, Prod;
    ghost var m0, m1, rs := mem[..], [], Image(v, base);
    var n := Prod(v.dims);
    ChildCount(v);
    HeadInside(v);
    NoSizes(v);
    var dest := StartStruct(mem, base, start, v);
    var size := FieldNamesSize(v.fields);
    used := Pad(dest + size);
    var f, count := 0, 0;
    while f < |v.fields|
      invariant f <= |v.fields| && count == f * n <= |v.children|
      invariant dest == NamesOff(v) + NamesSize(v.fields[..f])
      invariant used == KidsStart(v) + KidsSize(v.children[..count])
      invariant Linked(mem[..], base, v, count, f) && Untouched(m0, mem[..], rs)
    {
      m1 := mem[..];
      dest := AddName(mem, base, dest, v, f, count);
      UntouchedTrans(m0, m1, mem[..], rs);
      ColumnFits(f, |v.fields|, n);
      ghost var from := count;
      var idx := 0;
      while idx < n
        invariant idx <= n && count == from + idx
        invariant used == KidsStart(v) + KidsSize(v.children[..count])
        invariant Linked(mem[..], base, v, count, f + 1) && Untouched(m0, mem[..], rs)
      {
        m1 := mem[..];
        used := AddKid(mem, base, used, count, v, f + 1);
        UntouchedTrans(m0, m1, mem[..], rs);
        idx, count := idx + 1, count + 1;
      }
      f := f + 1;
    }
    assert v.children[..count] == v.children;
    LinkedStored(mem[..], base, v);
  }

  lemma NoSizes(v: Value)
    requires v.StructArray?
    ensures KidsSize(v.children[..0]) == 0 && NamesSize(v.fields[..0]) == 0
  {}

  method CopyCell(mem: array<byte>, base: nat, start: nat, v: Value) returns (used: nat)
    requires v.CellArray? && WellFormed(v) && Supported(v) && base + Size(v) <= mem.Length && start == HeadSize(v.dims)
    requires At(mem[..], base, Pack(Blank(v))) && At(mem[..], base + HEADER_SIZE, Words(v.dims))
    modifies mem
    ensures used == Size(v) && Stored(mem[..], base, v)
    ensures Untouched(old(mem[..]), mem[..], Image(v, base))
    decreases v, 1
  {
    hide Pad, Image, Stored, Untouched, WellFormed, Supported, Blank, Pack, Words, Linked, KidsSize, Prod;
    ghost var m0, rs := mem[..], Image(v, base);
    var n := Prod(v.dims);
    ChildCount(v);
    HeadInside(v);
    SetField(mem, base, JcField, start, Blank(v));
    ghost var m1 := mem[..];
    HeadTouched(m0, m1, base, v);
    AtStays(m0, m1, base + HEADER_SIZE, Words(v.dims));
    NoneLinked(mem[..], base, v);
    used := Pad(start + n * 8);
    var count := 0;
    while count < n
      invariant count <= |v.children|
      invariant used == KidsStart(v) + KidsSize(v.children[..count])
      invariant Linked(mem[..], base, v, count, 0) && Untouched(m0, mem[..], rs)
    {
      m1 := mem[..];
      used := AddKid(mem, base, used, count, v, 0);
      UntouchedTrans(m0, m1, mem[..], rs);
      count := count + 1;
    }
    assert v.children[..count] == v.children;
    LinkedStored(mem[..], base, v);
  }
}
