/** MATLAB values, and where each part of a value lies in shared memory.

    A value is laid out as a 64-byte header, its dimensions, then either the
    offsets of its children, its field names and the children themselves, or its
    payloads.  Each payload is preceded by a 16-byte allocation header and starts
    at a multiple of 32 bytes from the value. */
module SharedLayout {
  import opened Bytes
  import opened Options
  import opened Products

  const HEADER_SIZE: nat := 64
  const ALLOC_SIZE: nat := 16
  const MATLAB_ALIGNMENT: nat := 0x20
  const MAGIC_CHECK: nat := 0xFEED_FACE

  datatype Class =
    | Unknown | Cell | Struct | Logical | Char | Void | Double | Single
    | Int8 | Uint8 | Int16 | Uint16 | Int32 | Uint32 | Int64 | Uint64 | Function

  // The children of a structure array are listed field by field, and within a
  // field element by element.
  datatype Value =
    | StructArray(dims: seq<nat>, fields: seq<seq<byte>>, children: seq<Value>)
    | CellArray(dims: seq<nat>, children: seq<Value>)
    | FullArray(cls: Class, dims: seq<nat>, re: seq<byte>, im: Option<seq<byte>>)
    | SparseArray(cls: Class, dims: seq<nat>, nzmax: nat, re: seq<byte>, im: Option<seq<byte>>, ir: seq<byte>, jc: seq<byte>)
    | OtherArray(cls: Class, dims: seq<nat>)

  function Code(c: Class): byte {
    match c
    case Unknown => 0 case Cell => 1 case Struct => 2 case Logical => 3 case Char => 4 case Void => 5
    case Double => 6 case Single => 7 case Int8 => 8 case Uint8 => 9 case Int16 => 10 case Uint16 => 11
    case Int32 => 12 case Uint32 => 13 case Int64 => 14 case Uint64 => 15 case Function => 16
  }

  predicate Numeric(c: Class) {
    6 <= Code(c) <= 15
  }

  predicate Basic(c: Class) {
    Numeric(c) || c == Logical || c == Char
  }

  function ElemSize(c: Class): (n: nat)
    ensures 1 <= n <= 8
  {
    match c
    case Logical => 1 case Int8 => 1 case Uint8 => 1
    case Char => 2 case Int16 => 2 case Uint16 => 2
    case Single => 4 case Int32 => 4 case Uint32 => 4
    case _ => 8
  }

  predicate IsEmpty(dims: seq<nat>) {
    Prod(dims) == 0
  }

  function ClassOf(v: Value): Class {
    match v
    case StructArray(_, _, _) => Struct
    case CellArray(_, _) => Cell
    case _ => v.cls
  }

  // What MATLAB guarantees of any value.
  ghost predicate WellFormed(v: Value) {
    && (forall d :: d in v.dims ==> d < WORD) && Prod(v.dims) < WORD && |v.dims| < WORD
    && match v
       case StructArray(dims, fields, children) =>
         && |fields| < 0x8000_0000 && |children| == |fields| * Prod(dims)
         && (forall f :: f in fields ==> 0 !in f)
         && (forall c :: c in children ==> WellFormed(c))
       case CellArray(dims, children) =>
         |children| == Prod(dims) && (forall c :: c in children ==> WellFormed(c))
       case FullArray(cls, dims, re, im) =>
         && Basic(cls) && |re| == Prod(dims) * ElemSize(cls)
         && (im.Some? ==> Numeric(cls) && |im.value| == |re|)
       case SparseArray(cls, dims, nzmax, re, im, ir, jc) =>
         && (cls == Double || cls == Logical) && |dims| == 2 && nzmax < WORD
         && |re| == nzmax * ElemSize(cls)
         && (im.Some? ==> cls == Double && |im.value| == |re|)
         && |ir| == nzmax * 8 && |jc| == (dims[1] + 1) * 8
       case OtherArray(cls, dims) => !Basic(cls) && cls != Cell && cls != Struct
  }

  // What may be shared: every array in it has two dimensions or more, and a
  // supported class.
  ghost predicate Supported(v: Value) {
    && 2 <= |v.dims| && !v.OtherArray?
    && ((v.StructArray? || v.CellArray?) ==> forall c :: c in v.children ==> Supported(c))
  }

  // What survives a round trip: an empty full array is stored without data, so
  // it comes back real.
  function Norm(v: Value): Value {
    match v
    case StructArray(dims, fields, children) => StructArray(dims, fields, NormAll(children))
    case CellArray(dims, children) => CellArray(dims, NormAll(children))
    case FullArray(cls, dims, re, im) => if IsEmpty(dims) then FullArray(cls, dims, re, None) else v
    case _ => v
  }

  function NormAll(vs: seq<Value>): (r: seq<Value>)
    ensures |r| == |vs|
    ensures forall i :: 0 <= i < |vs| ==> r[i] == Norm(vs[i])
  {
    if vs == [] then [] else NormAll(vs[..|vs| - 1]) + [Norm(vs[|vs| - 1])]
  }

  // ----- sizes and offsets -----

  // The least multiple of 32 that is not below `n`.
  function Pad(n: nat): (r: nat)
    ensures r % 32 == 0 && n <= r < n + 32
  {
    n + (31 - (n + 31) % 32)
  }

  function Pad16(n: nat): (r: nat)
    ensures r % 16 == 0 && n <= r < n + 16
  {
    n + (15 - (n + 15) % 16)
  }

  function HeadSize(dims: seq<nat>): nat {
    HEADER_SIZE + |dims| * 8
  }

  // Where a payload starts and ends when `curr` bytes are in use.
  function BlockStart(curr: nat): nat {
    Pad(curr + ALLOC_SIZE)
  }

  function BlockEnd(curr: nat, n: nat): nat {
    BlockStart(curr) + Pad(n)
  }

  function NamesSize(fields: seq<seq<byte>>): nat {
    if fields == [] then 0 else NamesSize(fields[..|fields| - 1]) + |fields[|fields| - 1]| + 1
  }

  // The payloads of an array in the order in which they are stored.
  function Payloads(v: Value): seq<seq<byte>> {
    match v
    case FullArray(_, dims, re, im) =>
      if IsEmpty(dims) then [] else if im.Some? then [re, im.value] else [re]
    case SparseArray(_, _, _, re, im, ir, jc) =>
      if im.Some? then [re, im.value, ir, jc] else [re, ir, jc]
    case _ => []
  }

  function BlocksEnd(curr: nat, ps: seq<seq<byte>>): nat {
    if ps == [] then curr else BlockEnd(BlocksEnd(curr, ps[..|ps| - 1]), |ps[|ps| - 1]|)
  }

  function KidsStart(v: Value): nat
    requires v.StructArray? || v.CellArray?
  {
    if v.StructArray? then Pad(HeadSize(v.dims) + |v.children| * 8 + NamesSize(v.fields))
    else Pad(HeadSize(v.dims) + |v.children| * 8)
  }

  // The bytes a value takes up, the padding after it not included.
  function Size(v: Value): nat {
    if v.StructArray? || v.CellArray? then KidsStart(v) + KidsSize(v.children)
    else BlocksEnd(HeadSize(v.dims), Payloads(v))
  }

  function KidsSize(vs: seq<Value>): nat {
    if vs == [] then 0 else KidsSize(vs[..|vs| - 1]) + Pad(Size(vs[|vs| - 1]))
  }

  // ----- the header -----

  datatype Header = Header(
    data: nat,
    imag: nat,
    irOrNames: nat,
    jcOrKids: nat,
    numDims: nat,
    elemSize: nat,
    num: nat,
    numFields: nat,
    classId: byte,
    isEmpty: byte,
    isSparse: byte,
    isNumeric: byte
  )

  function Pack(h: Header): (bs: seq<byte>)
    ensures |bs| == HEADER_SIZE
  {
    Encode(h.data, 8) + Encode(h.imag, 8) + Encode(h.irOrNames, 8) + Encode(h.jcOrKids, 8)
    + Encode(h.numDims, 8) + Encode(h.elemSize, 8) + Encode(h.num, 8) + Encode(h.numFields, 4)
    + [h.classId, h.isEmpty, h.isSparse, h.isNumeric]
  }

  function Bit(b: bool): byte {
    if b then 1 else 0
  }

  // The header as first written, no offset known yet.
  function Blank(v: Value): Header {
    Header(SIZE_MAX, SIZE_MAX, SIZE_MAX, SIZE_MAX, |v.dims|, ElemSize(ClassOf(v)), Prod(v.dims),
           if v.StructArray? then |v.fields| else 0,
           Code(ClassOf(v)), Bit(IsEmpty(v.dims)), Bit(v.SparseArray?), Bit(Numeric(ClassOf(v))))
  }

  // The offset of payload number `k`.
  function PayloadOff(v: Value, k: nat): nat
    requires k < |Payloads(v)|
  {
    BlockStart(BlocksEnd(HeadSize(v.dims), Payloads(v)[..k]))
  }

  function HeaderOf(v: Value): Header {
    match v
    case StructArray(dims, _, children) =>
      Blank(v).(irOrNames := HeadSize(dims) + |children| * 8, jcOrKids := HeadSize(dims))
    case CellArray(dims, _) => Blank(v).(jcOrKids := HeadSize(dims))
    case FullArray(_, dims, _, im) =>
      if IsEmpty(dims) then Blank(v)
      else if im.Some? then Blank(v).(data := PayloadOff(v, 0), imag := PayloadOff(v, 1))
      else Blank(v).(data := PayloadOff(v, 0))
    case SparseArray(_, _, nzmax, _, im, _, _) =>
      if im.Some? then
        Blank(v).(num := nzmax, data := PayloadOff(v, 0), imag := PayloadOff(v, 1), irOrNames := PayloadOff(v, 2), jcOrKids := PayloadOff(v, 3))
      else
        Blank(v).(num := nzmax, data := PayloadOff(v, 0), irOrNames := PayloadOff(v, 1), jcOrKids := PayloadOff(v, 2))
    case OtherArray(_, _) => Blank(v)
  }

  // The signature that MATLAB's allocator puts before a block.
  function AllocHeader(n: nat): (bs: seq<byte>)
    ensures |bs| == ALLOC_SIZE
  {
    Encode(Pad16(n), 8) + Encode(MAGIC_CHECK, 4) + Encode(MATLAB_ALIGNMENT, 2) + Encode(ALLOC_SIZE, 2)
  }

  function Words(ws: seq<nat>): (bs: seq<byte>)
    ensures |bs| == |ws| * 8
  {
    if ws == [] then [] else Words(ws[..|ws| - 1]) + Encode(ws[|ws| - 1], 8)
  }

  // Each name with its terminating zero.
  function Names(fields: seq<seq<byte>>): (bs: seq<byte>)
    ensures |bs| == NamesSize(fields)
  {
    if fields == [] then [] else Names(fields[..|fields| - 1]) + fields[|fields| - 1] + [0]
  }

  // The offsets of the children, given where the first one lies.
  function Offsets(start: nat, vs: seq<Value>): (ws: seq<nat>)
    ensures |ws| == |vs|
    ensures forall k :: 0 <= k < |vs| ==> ws[k] == start + KidsSize(vs[..k])
  {
    if vs == [] then []
    else
      var k := |vs| - 1;
      assert forall j :: 0 <= j < k ==> vs[..k][..j] == vs[..j];
      Offsets(start, vs[..k]) + [start + KidsSize(vs[..k])]
  }

  // ----- the image of a value in memory -----

  datatype Kind = Head | Dims | Kids | FieldNames | Alloc | Payload

  datatype Region = Region(at: nat, bytes: seq<byte>, kind: Kind) {
    function End(): nat { at + |bytes| }
  }

  function BlocksImage(base: nat, curr: nat, ps: seq<seq<byte>>): seq<Region> {
    if ps == [] then []
    else
      var k := |ps| - 1;
      var off := BlockStart(BlocksEnd(curr, ps[..k]));
      BlocksImage(base, curr, ps[..k]) + [Region(base + off - ALLOC_SIZE, AllocHeader(|ps[k]|), Alloc), Region(base + off, ps[k], Payload)]
  }

  // Every byte that storing `v` at `base` determines, region by region in the
  // order of their addresses.
  function Image(v: Value, base: nat): seq<Region>
    decreases v, 1
  {
    [Region(base, Pack(HeaderOf(v)), Head), Region(base + HEADER_SIZE, Words(v.dims), Dims)] + Body(v, base)
  }

  function Body(v: Value, base: nat): seq<Region>
    decreases v, 0
  {
    if v.StructArray? || v.CellArray? then
      Links(v, base) + KidsImage(v.children, base + KidsStart(v))
    else BlocksImage(base, HeadSize(v.dims), Payloads(v))
  }

  function Links(v: Value, base: nat): seq<Region>
    requires v.StructArray? || v.CellArray?
  {
    var kids := Region(base + HeadSize(v.dims), Words(Offsets(KidsStart(v), v.children)), Kids);
    if v.CellArray? then [kids]
    else [kids, Region(base + HeadSize(v.dims) + |v.children| * 8, Names(v.fields), FieldNames)]
  }

  function KidsImage(vs: seq<Value>, base: nat): seq<Region>
    decreases vs, 1
  {
    if vs == [] then []
    else KidsImage(vs[..|vs| - 1], base) + Image(vs[|vs| - 1], base + KidsSize(vs[..|vs| - 1]))
  }

  // Memory holds the image of `v` at `base`.
  ghost predicate AllAt(m: seq<byte>, rs: seq<Region>) {
    forall r :: r in rs ==> At(m, r.at, r.bytes)
  }

  ghost predicate Stored(m: seq<byte>, base: nat, v: Value) {
    AllAt(m, Image(v, base))
  }

  ghost predicate Covered(rs: seq<Region>, i: int) {
    exists r :: r in rs && r.at <= i < r.End()
  }
}
