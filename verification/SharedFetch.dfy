/** Rebuilding a value from shared memory. */
module SharedFetch {
  import opened Bytes
  import opened Options
  import opened Products
  import opened SharedLayout
  import opened SharedRegions
  import opened SharedSize
  import opened SharedCopy

  function FromCode(b: byte): Class {
    if b == 1 then Cell else if b == 2 then Struct else if b == 3 then Logical else if b == 4 then Char
    else if b == 5 then Void else if b == 6 then Double else if b == 7 then Single else if b == 8 then Int8
    else if b == 9 then Uint8 else if b == 10 then Int16 else if b == 11 then Uint16 else if b == 12 then Int32
    else if b == 13 then Uint32 else if b == 14 then Int64 else if b == 15 then Uint64 else if b == 16 then Function
    else Unknown
  }

  lemma CodeRoundTrip(c: Class)
    ensures FromCode(Code(c)) == c
  {}

  // ----- the header -----

  ghost predicate Fits(h: Header) {
    && h.data < WORD && h.imag < WORD && h.irOrNames < WORD && h.jcOrKids < WORD
    && h.numDims < WORD && h.elemSize < WORD && h.num < WORD && h.numFields < 0x1_0000_0000
  }

  lemma PackParts(h: Header)
    ensures
      var p := Pack(h);
      && p[0..8] == Encode(h.data, 8) && p[8..16] == Encode(h.imag, 8)
      && p[16..24] == Encode(h.irOrNames, 8) && p[24..32] == Encode(h.jcOrKids, 8)
      && p[32..40] == Encode(h.numDims, 8) && p[40..48] == Encode(h.elemSize, 8)
      && p[48..56] == Encode(h.num, 8) && p[56..60] == Encode(h.numFields, 4)
      && p[60] == h.classId && p[61] == h.isEmpty && p[62] == h.isSparse && p[63] == h.isNumeric
  {
    hide Encode;
  }

  method ReadHeader(mem: array<byte>, base: nat, ghost h: Header) returns (r: Header)
    requires At(mem[..], base, Pack(h)) && Fits(h)
    ensures r == h
  {
    hide Encode, Pack, Decode;
    ghost var m, p := mem[..], Pack(h);
    PackParts(h);
    AtSlice(m, base, p, 0, 8);
    AtSlice(m, base, p, 8, 16);
    AtSlice(m, base, p, 16, 24);
    AtSlice(m, base, p, 24, 32);
    AtSlice(m, base, p, 32, 40);
    AtSlice(m, base, p, 40, 48);
    AtSlice(m, base, p, 48, 56);
    AtSlice(m, base, p, 56, 60);
    HeaderWords(h);
    assert m[base..base + HEADER_SIZE][60] == mem[base + 60];
    assert m[base..base + HEADER_SIZE][61] == mem[base + 61];
    assert m[base..base + HEADER_SIZE][62] == mem[base + 62];
    assert m[base..base + HEADER_SIZE][63] == mem[base + 63];
    r := Header(Decode(mem[base..base + 8]), Decode(mem[base + 8..base + 16]),
                Decode(mem[base + 16..base + 24]), Decode(mem[base + 24..base + 32]),
                Decode(mem[base + 32..base + 40]), Decode(mem[base + 40..base + 48]),
                Decode(mem[base + 48..base + 56]), Decode(mem[base + 56..base + 60]),
                mem[base + 60], mem[base + 61], mem[base + 62], mem[base + 63]);
    SameSlices(mem, base);
  }

  lemma SameSlices(mem: array<byte>, base: nat)
    requires base + HEADER_SIZE <= mem.Length
    ensures mem[base..base + 8] == mem[..][base..base + 8] && mem[base + 8..base + 16] == mem[..][base + 8..base + 16]
    ensures mem[base + 16..base + 24] == mem[..][base + 16..base + 24] && mem[base + 24..base + 32] == mem[..][base + 24..base + 32]
    ensures mem[base + 32..base + 40] == mem[..][base + 32..base + 40] && mem[base + 40..base + 48] == mem[..][base + 40..base + 48]
    ensures mem[base + 48..base + 56] == mem[..][base + 48..base + 56] && mem[base + 56..base + 60] == mem[..][base + 56..base + 60]
  {}

  lemma HeaderWords(h: Header)
    requires Fits(h)
    ensures Decode(Encode(h.data, 8)) == h.data && Decode(Encode(h.imag, 8)) == h.imag
    ensures Decode(Encode(h.irOrNames, 8)) == h.irOrNames && Decode(Encode(h.jcOrKids, 8)) == h.jcOrKids
    ensures Decode(Encode(h.numDims, 8)) == h.numDims && Decode(Encode(h.elemSize, 8)) == h.elemSize
    ensures Decode(Encode(h.num, 8)) == h.num && Decode(Encode(h.numFields, 4)) == h.numFields
  {
    hide Encode, Decode, Pow256;
    WordRound(h.data);
    WordRound(h.imag);
    WordRound(h.irOrNames);
    WordRound(h.jcOrKids);
    WordRound(h.numDims);
    WordRound(h.elemSize);
    WordRound(h.num);
    WordFits(h.numFields);
    DecodeEncode(h.numFields, 4);
  }

  lemma WordRound(w: nat)
    requires w < WORD
    ensures Decode(Encode(w, 8)) == w
  {
    WordFits(w);
    DecodeEncode(w, 8);
  }

  // Offsets that are set lie inside the value, so they are never the mark for
  // an absent part.
  lemma HeaderFits(v: Value)
    requires WellFormed(v) && Supported(v) && Size(v) < SIZE_MAX
    ensures Fits(HeaderOf(v))
    ensures HeaderOf(v).imag == SIZE_MAX <==> !(Leaf(v) && Norm(v).im.Some?)
  {
    hide BlocksEnd, Prod, Pad, KidsSize, NamesSize;
    if Leaf(v) {
      LeafFits(v);
    } else {
      HeadInside(v);
    }
  }

  lemma LeafFits(v: Value)
    requires Leaf(v) && WellFormed(v) && Size(v) < SIZE_MAX
    ensures forall k :: 0 <= k < |Payloads(v)| ==> PayloadOff(v, k) < SIZE_MAX
  {
    hide BlocksEnd, Payloads, PayloadOff, Size, WellFormed;
    forall k | 0 <= k < |Payloads(v)| ensures PayloadOff(v, k) < SIZE_MAX {
      PayloadPlace(v, 0, k);
    }
  }

  // ----- arrays of words, names -----

  lemma {:induction false} WordAt(m: seq<byte>, at: nat, ws: seq<nat>, k: nat)
    requires At(m, at, Words(ws)) && k < |ws|
    ensures At(m, at + k * 8, Encode(ws[k], 8))
    decreases |ws|
  {
    hide Encode;
    var n := |ws| - 1;
    AtAppend(m, at, Words(ws[..n]), Encode(ws[n], 8));
    if k < n {
      WordAt(m, at, ws[..n], k);
    }
  }

  method ReadWords(mem: array<byte>, at: nat, n: nat, ghost ws: seq<nat>) returns (r: seq<nat>)
    requires At(mem[..], at, Words(ws)) && n == |ws| && forall w :: w in ws ==> w < WORD
    ensures r == ws
  {
    r := [];
    var k := 0;
    while k < n
      invariant k <= n && r == ws[..k]
    {
      WordAt(mem[..], at, ws, k);
      assert ws[k] in ws;
      var w := ReadWord(mem, at + k * 8, ws[k]);
      r := r + [w];
      k := k + 1;
    }
  }

  // strlen and the string itself.
  method ReadName(mem: array<byte>, at: nat, ghost name: seq<byte>) returns (r: seq<byte>)
    requires At(mem[..], at, name + [0]) && 0 !in name
    ensures r == name
  {
    var k := 0;
    ghost var bs := name + [0];
    ByteAt(mem[..], at, bs, 0);
    while mem[at + k] != 0
      invariant k <= |name| && mem[at + k] == bs[k]
      decreases |name| - k
    {
      ByteAt(mem[..], at, bs, k + 1);
      k := k + 1;
    }
    assert k == |name|;
    r := mem[at..at + k];
    AtSlice(mem[..], at, bs, 0, k);
  }

  lemma {:induction false} NameAt(m: seq<byte>, at: nat, fields: seq<seq<byte>>, f: nat)
    requires At(m, at, Names(fields)) && f < |fields|
    ensures At(m, at + NamesSize(fields[..f]), fields[f] + [0])
    decreases |fields|
  {
    var n := |fields| - 1;
    assert Names(fields) == Names(fields[..n]) + (fields[n] + [0]);
    AtAppend(m, at, Names(fields[..n]), fields[n] + [0]);
    if f < n {
      assert fields[..n][..f] == fields[..f];
      NameAt(m, at, fields[..n], f);
    }
  }

  method ReadNames(mem: array<byte>, at: nat, n: nat, ghost fields: seq<seq<byte>>) returns (r: seq<seq<byte>>)
    requires At(mem[..], at, Names(fields)) && n == |fields| && forall f :: f in fields ==> 0 !in f
    ensures r == fields
  {
    r := [];
    var f, pos := 0, at;
    while f < n
      invariant f <= n && r == fields[..f] && pos == at + NamesSize(fields[..f])
    {
      NameAt(mem[..], at, fields, f);
      var name := ReadName(mem, pos, fields[f]);
      NamesGrow(fields, f);
      r := r + [name];
      pos := pos + |name| + 1;
      f := f + 1;
    }
  }

  // ----- payloads -----

  lemma PayloadAt(m: seq<byte>, base: nat, v: Value, k: nat)
    requires Leaf(v) && k < |Payloads(v)| && Stored(m, base, v)
    ensures At(m, base + PayloadOff(v, k), Payloads(v)[k])
  {
    hide Payloads, BlocksImage, BlocksEnd, Pack, HeaderOf, Words, Image, AllocHeader, Pad;
    var head := HeadSize(v.dims);
    BlocksImageAt(base, head, Payloads(v), k);
    var rs := BlockRegions(base, BlocksEnd(head, Payloads(v)[..k]), Payloads(v)[k]);
    assert rs[1] in rs;
    InBody(v, base, rs[1]);
  }

  method ReadBytes(mem: array<byte>, at: nat, n: nat, ghost bs: seq<byte>) returns (r: seq<byte>)
    requires At(mem[..], at, bs) && n == |bs|
    ensures r == bs
  {
    r := mem[at..at + n];
    assert r == mem[..][at..at + n];
  }

  // ----- the value -----

  lemma TreeParts(m: seq<byte>, base: nat, v: Value)
    requires Tree(v) && Stored(m, base, v)
    ensures At(m, base + HeadSize(v.dims), Words(Offsets(KidsStart(v), v.children)))
    ensures v.StructArray? ==> At(m, base + NamesOff(v), Names(v.fields))
  {
    hide Words, Names, Offsets, KidsImage, KidsStart, Pack, HeaderOf;
    var links := Links(v, base);
    assert links[0] in links && links[0] in Body(v, base);
    InBody(v, base, links[0]);
    if v.StructArray? {
      assert links[1] in links && links[1] in Body(v, base);
      InBody(v, base, links[1]);
    }
  }

  // The header of child number `k`, found through its stored offset.
  method KidBase(mem: array<byte>, base: nat, kids: nat, k: nat, ghost v: Value) returns (at: nat)
    requires Tree(v) && WellFormed(v) && Supported(v) && Size(v) < SIZE_MAX && Stored(mem[..], base, v)
    requires k < |v.children| && kids == HeadSize(v.dims)
    ensures at == base + KidsStart(v) + KidsSize(v.children[..k])
    ensures Stored(mem[..], at, v.children[k]) && WellFormed(v.children[k]) && Supported(v.children[k])
    ensures Size(v.children[k]) < SIZE_MAX
  {
    hide Stored, Size, Words, KidsSize, KidsStart, WellFormed, Supported;
    KidInside(v, k);
    KidFine(v, k);
    TreeParts(mem[..], base, v);
    ghost var ws := Offsets(KidsStart(v), v.children);
    WordAt(mem[..], base + kids, ws, k);
    var off := ReadWord(mem, base + kids + k * 8, ws[k]);
    KidStored(mem[..], base, v, k);
    at := base + off;
  }

  // Rebuilds the value stored at `base`.
  method FetchVariable(mem: array<byte>, base: nat, ghost v: Value) returns (r: Value)
    requires WellFormed(v) && Supported(v) && Size(v) < SIZE_MAX && Stored(mem[..], base, v)
    ensures r == Norm(v)
    decreases v, 1
  {
    hide Stored, Size, Words, WellFormed, Supported, Norm, HeaderOf, Pack, Fits;
    ghost var h0 := HeaderOf(v);
    HeaderFits(v);
    StoredParts(mem[..], base, v);
    var h := ReadHeader(mem, base, h0);
    HeaderTells(v);
    NotOther(v);
    DimsFit(v);
    var dims := ReadWords(mem, base + HEADER_SIZE, h.numDims, v.dims);
    var cls := FromCode(h.classId);
    if cls == Struct {
      r := FetchStruct(mem, base, h, dims, v);
    } else if cls == Cell {
      r := FetchCell(mem, base, h, dims, v);
    } else if h.isSparse != 0 {
      r := FetchSparse(mem, base, h, dims, cls, v);
    } else {
      r := FetchFull(mem, base, h, dims, cls, v);
    }
  }

  lemma DimsFit(v: Value)
    requires WellFormed(v)
    ensures forall d :: d in v.dims ==> d < WORD
  {}

  // What the header says of the value.
  lemma HeaderTells(v: Value)
    requires WellFormed(v) && Supported(v)
    ensures HeaderOf(v).numDims == |v.dims| && FromCode(HeaderOf(v).classId) == ClassOf(v)
    ensures ClassOf(v) == Struct <==> v.StructArray?
    ensures ClassOf(v) == Cell <==> v.CellArray?
    ensures HeaderOf(v).isSparse != 0 <==> v.SparseArray?
    ensures HeaderOf(v).isEmpty != 0 <==> IsEmpty(v.dims)
    ensures HeaderOf(v).num == if v.SparseArray? then v.nzmax else Prod(v.dims)
    ensures v.StructArray? ==> HeaderOf(v).numFields == |v.fields| && HeaderOf(v).irOrNames == NamesOff(v)
    ensures Tree(v) ==> HeaderOf(v).jcOrKids == HeadSize(v.dims)
  {
    hide Prod, BlocksEnd;
    CodeRoundTrip(ClassOf(v));
  }

  method FetchStruct(mem: array<byte>, base: nat, h: Header, dims: seq<nat>, ghost v: Value) returns (r: Value)
    requires v.StructArray? && WellFormed(v) && Supported(v) && Size(v) < SIZE_MAX && Stored(mem[..], base, v)
    requires h == HeaderOf(v) && dims == v.dims
    ensures r == Norm(v)
    decreases v, 0
  {
    hide Stored, Size, Words, WellFormed, Supported, HeaderOf, Prod, KidsSize, KidsStart;
    HeaderTells(v);
    ChildCount(v);
    NamesFine(v);
    TreeParts(mem[..], base, v);
    var numElems, numFields := h.num, h.numFields;
    var fields := ReadNames(mem, base + h.irOrNames, numFields, v.fields);
    var kids: seq<Value> := [];
    var f, count := 0, 0;
    while f < numFields
      invariant f <= numFields && count == f * numElems <= |v.children|
      invariant |kids| == count && forall k :: 0 <= k < count ==> kids[k] == Norm(v.children[k])
    {
      ColumnFits(f, numFields, numElems);
      ghost var from := count;
      var idx := 0;
      while idx < numElems
        invariant idx <= numElems && count == from + idx
        invariant |kids| == count && forall k :: 0 <= k < count ==> kids[k] == Norm(v.children[k])
      {
        var at := KidBase(mem, base, h.jcOrKids, count, v);
        var kid := FetchVariable(mem, at, v.children[count]);
        kids := kids + [kid];
        idx, count := idx + 1, count + 1;
      }
      f := f + 1;
    }
    assert kids == NormAll(v.children);
    r := StructArray(dims, fields, kids);
  }

  lemma NamesFine(v: Value)
    requires WellFormed(v) && v.StructArray?
    ensures forall f :: f in v.fields ==> 0 !in f
  {}

  method FetchCell(mem: array<byte>, base: nat, h: Header, dims: seq<nat>, ghost v: Value) returns (r: Value)
    requires v.CellArray? && WellFormed(v) && Supported(v) && Size(v) < SIZE_MAX && Stored(mem[..], base, v)
    requires h == HeaderOf(v) && dims == v.dims
    ensures r == Norm(v)
    decreases v, 0
  {
    hide Stored, Size, Words, WellFormed, Supported, HeaderOf, Prod, KidsSize, KidsStart;
    HeaderTells(v);
    ChildCount(v);
    var kids: seq<Value> := [];
    var count := 0;
    while count < h.num
      invariant count <= |v.children|
      invariant |kids| == count && forall k :: 0 <= k < count ==> kids[k] == Norm(v.children[k])
    {
      var at := KidBase(mem, base, h.jcOrKids, count, v);
      var kid := FetchVariable(mem, at, v.children[count]);
      kids := kids + [kid];
      count := count + 1;
    }
    assert kids == NormAll(v.children);
    r := CellArray(dims, kids);
  }

  method FetchSparse(mem: array<byte>, base: nat, h: Header, dims: seq<nat>, cls: Class, ghost v: Value) returns (r: Value)
    requires v.SparseArray? && WellFormed(v) && Supported(v) && Size(v) < SIZE_MAX && Stored(mem[..], base, v)
    requires h == HeaderOf(v) && dims == v.dims && cls == v.cls
    ensures r == Norm(v)
  {
    hide Stored, Size, Words, Prod, PayloadOff;
    HeaderFits(v);
    SparsePlaces(mem[..], base, v);
    var nzmax := h.num;
    var ir := ReadBytes(mem, base + h.irOrNames, nzmax * 8, v.ir);
    var jc := ReadBytes(mem, base + h.jcOrKids, (dims[1] + 1) * 8, v.jc);
    var re := ReadBytes(mem, base + h.data, nzmax * ElemSize(cls), v.re);
    var im := None;
    if h.imag != SIZE_MAX {
      var imag := ReadBytes(mem, base + h.imag, nzmax * ElemSize(cls), v.im.value);
      im := Some(imag);
    }
    r := SparseArray(cls, dims, nzmax, re, im, ir, jc);
  }

  lemma SparsePlaces(m: seq<byte>, base: nat, v: Value)
    requires v.SparseArray? && Stored(m, base, v)
    ensures At(m, base + HeaderOf(v).data, v.re) && (v.im.Some? ==> At(m, base + HeaderOf(v).imag, v.im.value))
    ensures At(m, base + HeaderOf(v).irOrNames, v.ir) && At(m, base + HeaderOf(v).jcOrKids, v.jc)
    ensures HeaderOf(v).num == v.nzmax
  {
    hide Stored, Words, Prod, PayloadOff, Blank;
    PayloadAt(m, base, v, 0);
    PayloadAt(m, base, v, 1);
    PayloadAt(m, base, v, 2);
    if v.im.Some? {
      PayloadAt(m, base, v, 3);
    }
  }

  method FetchFull(mem: array<byte>, base: nat, h: Header, dims: seq<nat>, cls: Class, ghost v: Value) returns (r: Value)
    requires v.FullArray? && WellFormed(v) && Supported(v) && Size(v) < SIZE_MAX && Stored(mem[..], base, v)
    requires h == HeaderOf(v) && dims == v.dims && cls == v.cls
    ensures r == Norm(v)
  {
    hide Stored, Size, Words, PayloadOff, Prod;
    HeaderFits(v);
    HeaderTells(v);
    var re: seq<byte>, im := [], None;
    if h.isEmpty == 0 {
      FullPlaces(mem[..], base, v);
      re := ReadBytes(mem, base + h.data, Prod(dims) * ElemSize(cls), v.re);
      if h.imag != SIZE_MAX {
        var imag := ReadBytes(mem, base + h.imag, Prod(dims) * ElemSize(cls), v.im.value);
        im := Some(imag);
      }
    }
    r := FullArray(cls, dims, re, im);
  }

  lemma FullPlaces(m: seq<byte>, base: nat, v: Value)
    requires v.FullArray? && !IsEmpty(v.dims) && Stored(m, base, v)
    ensures At(m, base + HeaderOf(v).data, v.re) && (v.im.Some? ==> At(m, base + HeaderOf(v).imag, v.im.value))
  {
    hide Stored, Words, Prod, PayloadOff, Blank;
    PayloadAt(m, base, v, 0);
    if v.im.Some? {
      PayloadAt(m, base, v, 1);
    }
  }
}
