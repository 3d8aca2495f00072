/** Machine words of `w` bits: two's complement, wrap-around and bitwise
    operations. */
module MachineWords {

  function Pow2(w: nat): (p: nat)
    ensures p >= 1
  {
    if w == 0 then 1 else 2 * Pow2(w - 1)
  }

  function MaxInt(w: nat): int
    requires w >= 1
  {
    Pow2(w - 1) - 1
  }

  function MinInt(w: nat): int
    requires w >= 1
  {
    0 - Pow2(w - 1)
  }

  function MaxUInt(w: nat): nat {
    Pow2(w) - 1
  }

  predicate IsInt(x: int, w: nat)
    requires w >= 1
  {
    MinInt(w) <= x <= MaxInt(w)
  }

  predicate IsUInt(x: int, w: nat) {
    0 <= x <= MaxUInt(w)
  }

  // The word that holds a signed number, and the number a word stands for.
  function Word(x: int, w: nat): (u: nat)
    requires w >= 1 && IsInt(x, w)
    ensures u < Pow2(w) && Signed(u, w) == x
  {
    if x < 0 then Pow2(w) + x else x
  }

  function Signed(u: nat, w: nat): (x: int)
    requires w >= 1 && u < Pow2(w)
    ensures IsInt(x, w)
  {
    if u >= Pow2(w - 1) then u - Pow2(w) else u
  }

  // What a word of `w` bits keeps of a number.
  function Wrapped(x: int, w: nat): (u: nat)
    ensures u < Pow2(w)
    ensures 0 <= x < Pow2(w) ==> u == x
    ensures Pow2(w) <= x < 2 * Pow2(w) ==> u == x - Pow2(w)
    ensures 0 - Pow2(w) <= x < 0 ==> u == x + Pow2(w)
  {
    WrapNear(x, Pow2(w));
    x % Pow2(w)
  }

  lemma WrapNear(x: int, p: nat)
    requires p >= 1
    ensures 0 <= x < p ==> x % p == x
    ensures p <= x < 2 * p ==> x % p == x - p
    ensures 0 - p <= x < 0 ==> x % p == x + p
  {
    if p <= x < 2 * p {
      Remainder(x, p, 1);
    } else if 0 - p <= x < 0 {
      Remainder(x, p, -1);
    } else if 0 <= x < p {
      Remainder(x, p, 0);
    }
  }

  lemma Remainder(x: int, p: nat, q: int)
    requires p >= 1 && 0 <= x - q * p < p
    ensures x % p == x - q * p && x / p == q
  {
    var d := x / p - q;
    assert p * d == (x - q * p) - x % p;
    SmallMultiple(p, d);
  }

  lemma SmallMultiple(p: int, d: int)
    requires -p < p * d < p
    ensures d == 0
  {
    if d >= 1 {
      AtLeast(p, d);
    }
  }

  lemma AtLeast(a: nat, b: nat)
    requires b >= 1
    ensures a * b >= a
  {}

  // ----- bitwise operations -----

  function BitXor(a: nat, b: nat, w: nat): nat {
    if w == 0 then 0 else (a + b) % 2 + 2 * BitXor(a / 2, b / 2, w - 1)
  }

  function BitAnd(a: nat, b: nat, w: nat): nat {
    if w == 0 then 0 else (a % 2) * (b % 2) + 2 * BitAnd(a / 2, b / 2, w - 1)
  }

  function BitNot(a: nat, w: nat): (n: nat)
    requires a < Pow2(w)
    ensures n < Pow2(w)
  {
    Pow2(w) - 1 - a
  }

  predicate TopBit(a: nat, w: nat)
    requires w >= 1
  {
    a >= Pow2(w - 1)
  }

  // A logical right shift by one less than the width.
  function TopShift(a: nat, w: nat): (r: nat)
    requires w >= 1 && a < Pow2(w)
    ensures r == if TopBit(a, w) then 1 else 0
  {
    Remainder(a, Pow2(w - 1), if TopBit(a, w) then 1 else 0);
    a / Pow2(w - 1)
  }

  lemma {:induction false} XorTop(a: nat, b: nat, w: nat)
    requires w >= 1 && a < Pow2(w) && b < Pow2(w)
    ensures BitXor(a, b, w) < Pow2(w) && (TopBit(BitXor(a, b, w), w) <==> TopBit(a, w) != TopBit(b, w))
  {
    if w > 1 {
      XorTop(a / 2, b / 2, w - 1);
    } else {
      assert BitXor(a / 2, b / 2, 0) == 0 && Pow2(0) == 1;
    }
  }

  lemma {:induction false} AndTop(a: nat, b: nat, w: nat)
    requires w >= 1 && a < Pow2(w) && b < Pow2(w)
    ensures BitAnd(a, b, w) < Pow2(w) && (TopBit(BitAnd(a, b, w), w) <==> TopBit(a, w) && TopBit(b, w))
  {
    if w > 1 {
      AndTop(a / 2, b / 2, w - 1);
    } else {
      assert BitAnd(a / 2, b / 2, 0) == 0 && Pow2(0) == 1;
    }
  }

  // Exclusive or with no bits, and with all of them.
  lemma {:induction false} XorMask(a: nat, w: nat)
    requires a < Pow2(w)
    ensures BitXor(a, 0, w) == a && BitXor(a, Pow2(w) - 1, w) == BitNot(a, w)
  {
    if w > 0 {
      var q := Pow2(w - 1);
      XorMask(a / 2, w - 1);
      Halve(a, q);
    }
  }

  lemma Halve(a: nat, q: nat)
    requires q >= 1
    ensures (2 * q - 1) / 2 == q - 1 && (a + (2 * q - 1)) % 2 == 1 - a % 2
  {}
}
