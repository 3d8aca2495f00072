/** Integer operations and conversions that saturate, for any width. */
module IntegerOps {
  import opened MachineWords
  import opened Options

  function Clamp(x: int, lo: int, hi: int): (r: int)
    requires lo <= hi
    ensures lo <= r <= hi && (lo <= x <= hi ==> r == x)
  {
    if x < lo then lo else if x > hi then hi else x
  }

  function ClampInt(x: int, w: nat): int
    requires w >= 1
  {
    Clamp(x, MinInt(w), MaxInt(w))
  }

  function ClampUInt(x: int, w: nat): int {
    Clamp(x, 0, MaxUInt(w))
  }

  function Size(x: int): nat {
    if x < 0 then -x else x
  }

  // ----- signed -----

  function AbsInt(x: int, w: nat): (r: int)
    requires w >= 1 && IsInt(x, w)
    ensures r == ClampInt(Size(x), w)
  {
    var u := Word(x, w);
    var mask := if TopBit(u, w) then MaxUInt(w) else 0;
    XorMask(u, w);
    var out := Signed(Wrapped(BitXor(u, mask, w) - mask, w), w);
    if out < 0 then MaxInt(w) else out
  }

  // One for a negative number, zero for any other.
  function SignBit(x: int, w: nat): (r: nat)
    requires w >= 1 && IsInt(x, w)
    ensures r == if x < 0 then 1 else 0
  {
    TopShift(Word(x, w), w)
  }

  // The sum overflows when its sign differs from both signs; the result is then
  // the maximum plus one or plus nothing, wrapped.
  function AddInt(augend: int, addend: int, w: nat): (r: int)
    requires w >= 1 && IsInt(augend, w) && IsInt(addend, w)
    ensures r == ClampInt(augend + addend, w)
  {
    var a, b := Word(augend, w), Word(addend, w);
    var sum := Wrapped(a + b, w);
    XorTop(sum, a, w);
    XorTop(sum, b, w);
    var flip1, flip2 := BitXor(sum, a, w), BitXor(sum, b, w);
    AndTop(flip1, flip2, w);
    if TopBit(BitAnd(flip1, flip2, w), w) then Signed(Wrapped(MaxInt(w) + TopShift(BitNot(sum, w), w), w), w)
    else Signed(sum, w)
  }

  function SubInt(minuend: int, subtrahend: int, w: nat): (r: int)
    requires w >= 1 && IsInt(minuend, w) && IsInt(subtrahend, w)
    ensures r == ClampInt(minuend - subtrahend, w)
  {
    var a, b := Word(minuend, w), Word(subtrahend, w);
    var diff := Wrapped(a - b, w);
    XorTop(diff, a, w);
    XorTop(diff, BitNot(b, w), w);
    var flip1, flip2 := BitXor(diff, a, w), BitXor(diff, BitNot(b, w), w);
    AndTop(flip1, flip2, w);
    if TopBit(BitAnd(flip1, flip2, w), w) then Signed(Wrapped(MaxInt(w) + TopShift(BitNot(diff, w), w), w), w)
    else Signed(diff, w)
  }

  function NegInt(x: int, w: nat): (r: int)
    requires w >= 1 && IsInt(x, w)
    ensures r == ClampInt(-x, w)
  {
    if x == MinInt(w) then MaxInt(w) else -x
  }

  // ----- unsigned -----

  function AddUInt(augend: nat, addend: nat, w: nat): (r: nat)
    requires IsUInt(augend, w) && IsUInt(addend, w)
    ensures r == ClampUInt(augend + addend, w)
  {
    var ret := Wrapped(augend + addend, w);
    if ret < augend then MaxUInt(w) else ret
  }

  function SubUInt(minuend: nat, subtrahend: nat, w: nat): (r: nat)
    requires IsUInt(minuend, w) && IsUInt(subtrahend, w)
    ensures r == ClampUInt(minuend - subtrahend, w)
  {
    var ret := Wrapped(minuend - subtrahend, w);
    if ret > minuend then 0 else ret
  }

  // ----- multiplication in a wider type -----

  lemma {:induction false} Pow2Sum(a: nat, b: nat)
    ensures Pow2(a + b) == Pow2(a) * Pow2(b)
  {
    if a > 0 {
      Pow2Sum(a - 1, b);
    }
  }

  lemma MulBelow(a: nat, b: nat, p: nat)
    requires a < p && b < p
    ensures a * b < p * p
  {}

  lemma MulWithin(x: int, y: int, h: nat)
    requires 0 - h <= x <= h && 0 - h <= y <= h
    ensures 0 - h * h <= x * y <= h * h
  {
    var a, b := Size(x), Size(y);
    MulGrows(a, h, b);
    MulGrows(b, h, h);
    assert x * y == a * b || x * y + a * b == 0;
  }

  lemma MulGrows(a: nat, b: nat, c: nat)
    requires a <= b
    ensures a * c <= b * c
  {}

  lemma ProductFits(x: int, y: int, w: nat)
    requires w >= 1 && IsInt(x, w) && IsInt(y, w)
    ensures IsInt(x * y, 2 * w) && Signed(Wrapped(x * y, 2 * w), 2 * w) == x * y
  {
    var h := Pow2(w - 1);
    MulWithin(x, y, h);
    Pow2Sum(w - 1, w - 1);
    AtLeast(h, h);
    assert Pow2(2 * w - 1) == 2 * Pow2((w - 1) + (w - 1));
  }

  function MulIntWide(m1: int, m2: int, w: nat): (r: int)
    requires w >= 1 && IsInt(m1, w) && IsInt(m2, w)
    ensures r == ClampInt(m1 * m2, w)
  {
    ProductFits(m1, m2, w);
    var promoted := Signed(Wrapped(m1 * m2, 2 * w), 2 * w);
    if promoted > MaxInt(w) then MaxInt(w)
    else if promoted < MinInt(w) then MinInt(w)
    else promoted
  }

  function MulUIntWide(m1: nat, m2: nat, w: nat): (r: nat)
    requires IsUInt(m1, w) && IsUInt(m2, w)
    ensures r == ClampUInt(m1 * m2, w)
  {
    hide Pow2, Wrapped;
    MulBelow(m1, m2, Pow2(w));
    Pow2Sum(w, w);
    var promoted := Wrapped(m1 * m2, 2 * w);
    if promoted > MaxUInt(w) then MaxUInt(w) else promoted
  }

  // ----- multiplication by halves of `h` bits -----

  // A product of words, the halves of a word, and a half moved up.
  function MulWord(a: nat, b: nat, w: nat): nat {
    Wrapped(a * b, w)
  }

  function Upper(m: nat, h: nat): nat {
    Quotient(m, Pow2(h))
  }

  function Quotient(m: nat, p: nat): nat
    requires p >= 1
  {
    m / p
  }

  function Lower(m: nat, h: nat): (l: nat)
    ensures l < Pow2(h)
  {
    m % Pow2(h)
  }

  function Raised(m: nat, h: nat): nat {
    Wrapped(m * Pow2(h), 2 * h)
  }

  // The product with the upper half of `m1` and that with its lower half; none
  // if the former is too large to be moved up.
  function PartProducts(m1: nat, m2: nat, h: nat): Option<(nat, nat)> {
    var upper := MulWord(Upper(m1, h), m2, 2 * h);
    if Upper(upper, h) != 0 then None else Some((Raised(upper, h), MulWord(Lower(m1, h), m2, 2 * h)))
  }

  function MulUIntHalves(m1: nat, m2: nat, h: nat): nat
    requires IsUInt(m1, 2 * h) && IsUInt(m2, 2 * h)
  {
    PartsWords(m1, Lower(m2, h), h);
    PartsWords(m2, Lower(m1, h), h);
    if Upper(m1, h) != 0 then
      if Upper(m2, h) != 0 then MaxUInt(2 * h)
      else
        match PartProducts(m1, Lower(m2, h), h)
        case None => MaxUInt(2 * h)
        case Some(parts) => AddUInt(parts.0, parts.1, 2 * h)
    else if Upper(m2, h) != 0 then
      match PartProducts(m2, Lower(m1, h), h)
      case None => MaxUInt(2 * h)
      case Some(parts) => AddUInt(parts.1, parts.0, 2 * h)
    else MulWord(m1, m2, 2 * h)
  }

  lemma PartsWords(m1: nat, m2: nat, h: nat)
    ensures var r := PartProducts(m1, m2, h); r.Some? ==> r.value.0 < Pow2(2 * h) && r.value.1 < Pow2(2 * h)
  {}

  // ----- why the halves give the product -----

  lemma Divided(m: nat, b: nat)
    requires b >= 1 && m < b * b
    ensures m == (m / b) * b + m % b && m / b < b
    ensures m / b != 0 <==> m >= b
    ensures m < b ==> m % b == m
  {
    if m < b {
      Remainder(m, b, 0);
    }
    if m / b >= b {
      MulGrows(b, m / b, b);
    }
    if m / b >= 1 {
      MulGrows(1, m / b, b);
    }
  }

  lemma Halves(m: nat, h: nat)
    requires m < Pow2(2 * h)
    ensures Upper(m, h) != 0 <==> m >= Pow2(h)
    ensures m < Pow2(h) ==> Lower(m, h) == m
  {
    hide Pow2;
    Pow2Sum(h, h);
    Divided(m, Pow2(h));
  }

  lemma Split(u: nat, l: nat, m: nat, b: nat, p: nat)
    requires p == u * m
    ensures (u * b + l) * m == p * b + l * m
  {
    assert (u * b + l) * m == (u * b) * m + l * m;
    assert (u * b) * m == (u * m) * b;
  }

  // A product `p` moved up by a half.
  lemma MovedUp(p: nat, b: nat)
    requires b >= 1 && p < b * b
    ensures p / b != 0 <==> p >= b
    ensures if p >= b then p * b >= b * b else p * b < b * b
  {
    Divided(p, b);
    if p >= b {
      MulGrows(b, p, b);
    } else {
      MulGrows(p, b - 1, b);
      assert (b - 1) * b == b * b - b;
    }
  }

  // With `u` and `l` the halves of a factor, `p` and `q` their products with `m`,
  // and `r` the former moved up.
  lemma PartSum(u: nat, l: nat, m: nat, b: nat, p: nat, q: nat, r: nat, exact: nat)
    requires b >= 1 && u < b && l < b && m < b
    requires p == u * m && q == l * m && r == p * b && exact == (u * b + l) * m
    ensures p < b * b && q < b * b && exact == r + q
    ensures if p / b != 0 then r >= b * b else r < b * b
  {
    Split(u, l, m, b, p);
    MulBelow(u, m, b);
    MulBelow(l, m, b);
    MovedUp(p, b);
  }

  lemma PartsExact(m1: nat, m2: nat, h: nat, exact: nat)
    requires m1 < Pow2(2 * h) && m2 < Pow2(h) && exact == m1 * m2
    ensures
      match PartProducts(m1, m2, h)
      case None => exact >= Pow2(2 * h)
      case Some(parts) => parts.0 + parts.1 == exact
  {
    hide Pow2, PartProducts;
    var b := Pow2(h);
    var u, l := m1 / b, m1 % b;
    Pow2Sum(h, h);
    Divided(m1, b);
    var p, q := u * m2, l * m2;
    PartSum(u, l, m2, b, p, q, p * b, exact);
    PartsAre(m1, m2, h, p, q, p * b);
  }

  lemma PartsAre(m1: nat, m2: nat, h: nat, p: nat, q: nat, r: nat)
    requires p == (m1 / Pow2(h)) * m2 && q == (m1 % Pow2(h)) * m2 && r == p * Pow2(h)
    requires p < Pow2(2 * h) && q < Pow2(2 * h) && (p / Pow2(h) == 0 ==> r < Pow2(2 * h))
    ensures PartProducts(m1, m2, h) == if p / Pow2(h) != 0 then None else Some((r, q))
  {
    hide Pow2;
    assert MulWord(Upper(m1, h), m2, 2 * h) == p && MulWord(Lower(m1, h), m2, 2 * h) == q;
  }

  // Both factors reach into their upper halves: the product is too large.
  lemma BothUpper(m1: nat, m2: nat, h: nat, exact: nat)
    requires m1 >= Pow2(h) && m2 >= Pow2(h) && exact == m1 * m2
    ensures exact >= Pow2(2 * h)
  {
    hide Pow2;
    Pow2Sum(h, h);
    MulGrows(Pow2(h), m1, m2);
    MulGrows(Pow2(h), m2, Pow2(h));
  }

  // Neither does: the product is that of the words.
  lemma NoneUpper(m1: nat, m2: nat, h: nat, exact: nat)
    requires m1 < Pow2(h) && m2 < Pow2(h) && exact == m1 * m2
    ensures exact < Pow2(2 * h) && MulWord(m1, m2, 2 * h) == exact
  {
    hide Pow2, Wrapped;
    Pow2Sum(h, h);
    MulBelow(m1, m2, Pow2(h));
  }

  lemma Swap(a: nat, b: nat)
    ensures a * b == b * a
  {}

  // Unsigned multiplication by halves is exact up to saturation.
  lemma MulUIntExact(m1: nat, m2: nat, h: nat)
    requires IsUInt(m1, 2 * h) && IsUInt(m2, 2 * h)
    ensures MulUIntHalves(m1, m2, h) == ClampUInt(m1 * m2, 2 * h)
  {
    hide Pow2, PartProducts, MulWord, Upper, Lower;
    var exact := m1 * m2;
    Halves(m1, h);
    Halves(m2, h);
    if m1 >= Pow2(h) && m2 >= Pow2(h) {
      BothUpper(m1, m2, h, exact);
    } else if m1 >= Pow2(h) {
      PartsExact(m1, m2, h, exact);
    } else if m2 >= Pow2(h) {
      Swap(m1, m2);
      PartsExact(m2, m1, h, exact);
    } else {
      NoneUpper(m1, m2, h, exact);
    }
  }

  // ----- signed multiplication by halves -----

  // A magnitude that is given its sign, saturating.
  function WithSign(uret: nat, pos: bool, w: nat): (r: int)
    requires w >= 1 && uret < Pow2(w)
    ensures r == ClampInt(if pos then uret else 0 - uret, w)
  {
    if pos then if uret > MaxInt(w) then MaxInt(w) else uret
    else if uret > Pow2(w - 1) then MinInt(w)
    else Signed(Wrapped(0 - Signed(uret, w), w), w)
  }

  function MulMagnitudes(pos: bool, a1: nat, a2: nat, h: nat): int
    requires h >= 1
  {
    var far := if pos then MaxInt(2 * h) else MinInt(2 * h);
    if Upper(a1, h) != 0 then
      if Upper(a2, h) != 0 then far
      else
        match PartProducts(a1, Lower(a2, h), h)
        case None => far
        case Some(parts) =>
          var uret := Wrapped(parts.0 + parts.1, 2 * h);
          if uret < parts.0 then far else WithSign(uret, pos, 2 * h)
    else if Upper(a2, h) != 0 then
      match PartProducts(a2, Lower(a1, h), h)
      case None => far
      case Some(parts) =>
        var uret := Wrapped(parts.1 + parts.0, 2 * h);
        if uret < parts.0 then far else WithSign(uret, pos, 2 * h)
    else WithSign(MulWord(a1, a2, 2 * h), pos, 2 * h)
  }

  lemma FarOff(p: nat, pos: bool, w: nat)
    requires w >= 1 && p >= Pow2(w)
    ensures ClampInt(if pos then p else 0 - p, w) == if pos then MaxInt(w) else MinInt(w)
  {}

  lemma MagnitudesExact(pos: bool, a1: nat, a2: nat, h: nat, exact: nat)
    requires h >= 1 && IsUInt(a1, 2 * h) && IsUInt(a2, 2 * h) && exact == a1 * a2
    ensures MulMagnitudes(pos, a1, a2, h) == ClampInt(if pos then exact else 0 - exact, 2 * h)
  {
    hide Pow2, PartProducts, MulWord, Upper, Lower, ClampInt, MaxInt, MinInt;
    Halves(a1, h);
    Halves(a2, h);
    PartsWords(a1, a2, h);
    PartsWords(a2, a1, h);
    if exact >= Pow2(2 * h) {
      FarOff(exact, pos, 2 * h);
    }
    if a1 >= Pow2(h) && a2 >= Pow2(h) {
      BothUpper(a1, a2, h, exact);
    } else if a1 >= Pow2(h) {
      PartsExact(a1, a2, h, exact);
    } else if a2 >= Pow2(h) {
      Swap(a1, a2);
      PartsExact(a2, a1, h, exact);
    } else {
      NoneUpper(a1, a2, h, exact);
    }
  }

  // The magnitude saturates, so the product of the minimum and one is not exact.
  predicate MinTimesOne(m1: int, m2: int, w: nat)
    requires w >= 1
  {
    (m1 == MinInt(w) && m2 == 1) || (m1 == 1 && m2 == MinInt(w))
  }

  function MulIntHalves(m1: int, m2: int, h: nat): int
    requires h >= 1 && IsInt(m1, 2 * h) && IsInt(m2, 2 * h)
  {
    MulMagnitudes((m1 < 0) == (m2 < 0), AbsInt(m1, 2 * h), AbsInt(m2, 2 * h), h)
  }

  // Signed multiplication is exact up to saturation except for the minimum times
  // one, which misses by one.
  lemma MulIntExact(m1: int, m2: int, h: nat)
    requires h >= 1 && IsInt(m1, 2 * h) && IsInt(m2, 2 * h)
    ensures MulIntHalves(m1, m2, h) == ClampInt(m1 * m2, 2 * h) <==> !MinTimesOne(m1, m2, 2 * h)
    ensures MinTimesOne(m1, m2, 2 * h) ==> MulIntHalves(m1, m2, h) == MinInt(2 * h) + 1
  {
    hide MulMagnitudes, Pow2, AbsInt;
    var w := 2 * h;
    var a1, a2, top := AbsInt(m1, w), AbsInt(m2, w), Pow2(w - 1);
    TopBig(w);
    MagnitudeFits(m1, w);
    MagnitudeFits(m2, w);
    var e, xy := Times(a1, a2), Times(m1, m2);
    Saturated(m1, m2, top, a1, a2);
    MagnitudesExact((m1 < 0) == (m2 < 0), a1, a2, h, e);
    assert xy == m1 * m2;
    WhenExact(xy, e, m1, m2, w);
  }

  lemma TopBig(w: nat)
    requires w >= 2
    ensures Pow2(w - 1) == 2 * Pow2(w - 2) >= 2
  {}

  lemma MagnitudeFits(x: int, w: nat)
    requires w >= 2 && IsInt(x, w)
    ensures IsUInt(AbsInt(x, w), w)
  {
    TopBig(w);
  }

  // The two sides of the theorem, with the products named.
  lemma WhenExact(xy: int, e: nat, m1: int, m2: int, w: nat)
    requires w >= 2 && IsInt(m1, w) && IsInt(m2, w)
    requires MinTimesOne(m1, m2, w) ==> xy == MinInt(w)
    requires ClampInt(if (m1 < 0) == (m2 < 0) then e else 0 - e, w) == if MinTimesOne(m1, m2, w) then MinInt(w) + 1 else ClampInt(xy, w)
    ensures ClampInt(if (m1 < 0) == (m2 < 0) then e else 0 - e, w) == ClampInt(xy, w) <==> !MinTimesOne(m1, m2, w)
  {
    TopBig(w);
  }

  function Times(a: int, b: int): int {
    a * b
  }

  // With the range from -`top` to `top` - 1, and `a` and `b` the saturated
  // magnitudes of `x` and `y`.
  lemma Saturated(x: int, y: int, top: nat, a: nat, b: nat)
    requires top >= 2 && 0 - top <= x < top && 0 - top <= y < top
    requires a == Clamp(Size(x), 0 - top, top - 1) && b == Clamp(Size(y), 0 - top, top - 1)
    ensures Times(a, b) >= 0
    ensures Clamp(if (x < 0) == (y < 0) then Times(a, b) else 0 - Times(a, b), 0 - top, top - 1)
      == if (x == 0 - top && y == 1) || (x == 1 && y == 0 - top) then 1 - top else Clamp(Times(x, y), 0 - top, top - 1)
    ensures (x == 0 - top && y == 1) || (x == 1 && y == 0 - top) ==> Times(x, y) == 0 - top
  {
    hide Times;
    TimesSwaps(a, b);
    TimesSwaps(x, y);
    if x == 0 - top {
      MinProduct(y, top, b);
    } else if y == 0 - top {
      MinProduct(x, top, a);
    } else {
      SignedSizes(x, y, a, b);
    }
  }

  lemma TimesSwaps(a: int, b: int)
    ensures Times(a, b) == Times(b, a)
  {}

  lemma SignedSizes(x: int, y: int, a: nat, b: nat)
    requires a == Size(x) && b == Size(y)
    ensures Times(a, b) >= 0 && Times(x, y) == if (x < 0) == (y < 0) then Times(a, b) else 0 - Times(a, b)
  {}

  lemma MinProduct(y: int, top: nat, b: nat)
    requires top >= 2 && 0 - top <= y < top && b == Clamp(Size(y), 0 - top, top - 1)
    ensures
      var e := Times(top - 1, b);
      e >= 0 && Clamp(if y < 0 then e else 0 - e, 0 - top, top - 1) == if y == 1 then 1 - top else Clamp(Times(0 - top, y), 0 - top, top - 1)
    ensures y == 1 ==> Times(0 - top, y) == 0 - top
  {
    if b >= 2 {
      MulGrows(2, b, top - 1);
      MulGrows(2, Size(y), top);
    }
    SignedSizes(0 - top, y, top, Size(y));
  }
}
