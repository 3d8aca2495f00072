/** Rounding division and modulus, for any width. */
module IntegerDivision {
  import opened MachineWords
  import opened IntegerOps

  // ----- the division that truncates toward zero -----

  function Truncated(n: int, d: int): int
    requires d != 0
  {
    var q := Quotient(Size(n), Size(d));
    if (n < 0) == (d < 0) then q else 0 - q
  }

  // Its remainder, with the sign of `n`.
  function Rest(n: int, d: int): int
    requires d != 0
  {
    var r := Size(n) % Size(d);
    if n < 0 then 0 - r else r
  }

  // ----- rounding half away from zero -----

  function HalfUp(n: nat, d: nat): nat
    requires d >= 1
  {
    Quotient(2 * n + d, 2 * d)
  }

  function HalfAway(n: int, d: int): int
    requires d != 0
  {
    var q := HalfUp(Size(n), Size(d));
    if (n < 0) == (d < 0) then q else 0 - q
  }

  lemma Steps(n: nat, d: nat)
    requires d >= 1
    ensures n == (n / d) * d + n % d && 0 <= n % d < d && n / d >= 0
  {}

  // One more than the truncated quotient when the remainder is at least half.
  lemma HalfUpSteps(n: nat, d: nat)
    requires d >= 1
    ensures HalfUp(n, d) == Quotient(n, d) + if n % d >= d - n % d then 1 else 0
  {
    hide Quotient;
    var q, r := Quotient(n, d), n % d;
    QuotientSteps(n, d, q, r);
    var c := if r >= d - r then 1 else 0;
    var k := q * d;
    Doubled(q + c, d);
    Doubled(q, d);
    QuotientIs(2 * n + d, 2 * d, q + c);
  }

  lemma QuotientSteps(n: nat, d: nat, q: nat, r: nat)
    requires d >= 1 && q == Quotient(n, d) && r == n % d
    ensures n == q * d + r && r < d
  {
    Steps(n, d);
  }

  lemma Doubled(q: nat, d: nat)
    ensures q * (2 * d) == 2 * (q * d) && (q + 1) * d == q * d + d
  {}

  lemma QuotientIs(x: nat, p: nat, q: nat)
    requires p >= 1 && 0 <= x - q * p < p
    ensures Quotient(x, p) == q
  {
    Remainder(x, p, q);
  }

  // Rounded quotients are smaller than the dividend unless the divisor is one.
  lemma HalfUpBound(n: nat, d: nat, top: nat)
    requires 1 <= d <= top && n <= top
    ensures d == 1 ==> HalfUp(n, d) == n
    ensures d >= 2 ==> HalfUp(n, d) < top
  {
    hide Quotient, HalfUp;
    HalfUpSteps(n, d);
    var q, r := Quotient(n, d), n % d;
    QuotientSteps(n, d, q, r);
    if d >= 2 {
      MulGrows(2, d, q);
      assert q * d == d * q;
    } else {
      assert q * 1 == q;
    }
  }

  // The rounded quotient is the nearest one, and of two equally near the one
  // farther from zero; no other is.
  ghost predicate Nearest(n: int, d: int, q: int) {
    2 * Size(n - q * d) < Size(d) || (2 * Size(n - q * d) == Size(d) && Size(q * d) > Size(n))
  }

  lemma HalfUpNearest(n: nat, d: nat)
    requires d >= 1
    ensures Nearest(n, d, HalfUp(n, d))
  {
    hide Quotient, HalfUp;
    HalfUpSteps(n, d);
    var q, r := Quotient(n, d), n % d;
    QuotientSteps(n, d, q, r);
    Doubled(q, d);
  }

  lemma HalfAwayNearest(n: int, d: int)
    requires d != 0
    ensures Nearest(n, d, HalfAway(n, d))
  {
    hide HalfUp;
    var q := HalfUp(Size(n), Size(d));
    HalfUpNearest(Size(n), Size(d));
    Signs(q, d);
  }

  lemma Signs(q: int, d: int)
    ensures q * (0 - d) == 0 - q * d && (0 - q) * d == 0 - q * d && (0 - q) * (0 - d) == q * d
  {}

  lemma NearestOnce(n: int, d: int, q: int, q': int)
    requires d != 0 && Nearest(n, d, q) && Nearest(n, d, q')
    ensures q == q'
  {
    NearMultiples(n, d, q, q', q * d, q' * d);
  }

  // Two multiples of `d` both nearest to `n` are less than `d` apart, or else one
  // of them would be zero, nearer to zero than `n` is.
  lemma NearMultiples(n: int, d: int, q: int, q': int, a: int, b: int)
    requires d != 0 && a == q * d && b == q' * d
    requires 2 * Size(n - a) < Size(d) || (2 * Size(n - a) == Size(d) && Size(a) > Size(n))
    requires 2 * Size(n - b) < Size(d) || (2 * Size(n - b) == Size(d) && Size(b) > Size(n))
    ensures q == q'
  {
    if Size(a - b) < Size(d) {
      Difference(q, q', d, a, b);
      SmallDifference(q - q', d);
    } else {
      SmallDifference(q, d);
      assert false;
    }
  }

  lemma Difference(q: int, q': int, d: int, a: int, b: int)
    requires a == q * d && b == q' * d
    ensures (q - q') * d == a - b
  {}

  lemma SmallDifference(k: int, d: int)
    requires d != 0 && Size(k * d) < Size(d)
    ensures k == 0
  {
    Signs(k, d);
    if d > 0 {
      SmallMultiple(d, k);
    } else {
      SmallMultiple(0 - d, k);
    }
  }

  // ----- the operations -----

  function DivInt(numer: int, denom: int, w: nat): (r: int)
    requires w >= 1 && IsInt(numer, w) && IsInt(denom, w)
  {
    if denom == 0 then
      if numer > 0 then MaxInt(w) else if numer < 0 then MinInt(w) else 0
    else if denom < 0 then
      if denom == -1 && numer == MinInt(w) then MaxInt(w)
      else
        var ret := Truncated(numer, denom);
        RestFits(numer, denom, w);
        var check := 0 - AbsInt(Rest(numer, denom), w);
        if check <= denom - check then ret - (1 - 2 * SignBit(numer, w)) else ret
    else
      var ret := Truncated(numer, denom);
      RestFits(numer, denom, w);
      var check := AbsInt(Rest(numer, denom), w);
      if check >= denom - check then ret + (1 - 2 * SignBit(numer, w)) else ret
  }

  lemma RestFits(n: int, d: int, w: nat)
    requires w >= 1 && IsInt(n, w) && IsInt(d, w) && d != 0
    ensures IsInt(Rest(n, d), w) && AbsInt(Rest(n, d), w) == Size(n) % Size(d)
  {}

  lemma DivIntExact(numer: int, denom: int, w: nat)
    requires w >= 1 && IsInt(numer, w) && IsInt(denom, w)
    ensures denom != 0 ==> DivInt(numer, denom, w) == ClampInt(HalfAway(numer, denom), w)
    ensures denom == 0 ==> DivInt(numer, denom, w) == if numer > 0 then MaxInt(w) else if numer < 0 then MinInt(w) else 0
  {
    hide HalfUp, Quotient, Pow2;
    if denom != 0 {
      HalfUpSteps(Size(numer), Size(denom));
      HalfUpBound(Size(numer), Size(denom), Pow2(w - 1));
      RestFits(numer, denom, w);
    }
  }

  function DivUInt(numer: nat, denom: nat, w: nat): (r: nat)
    requires IsUInt(numer, w) && IsUInt(denom, w)
    ensures denom != 0 ==> r == HalfUp(numer, denom) && IsUInt(r, w)
    ensures denom == 0 ==> r == if numer != 0 then MaxUInt(w) else 0
  {
    if denom == 0 then if numer != 0 then MaxUInt(w) else 0
    else
      HalfUpSteps(numer, denom);
      HalfUpBound(numer, denom, MaxUInt(w));
      var ret, rem := Quotient(numer, denom), numer % denom;
      if rem >= denom - rem then ret + 1 else ret
  }

  // Narrow operands are promoted to 32 bits, so the minimum modulo minus one traps only
  // from there on.
  function ModInt(numer: int, denom: int, w: nat): int
    requires w >= 1 && IsInt(numer, w) && IsInt(denom, w) && (w >= 32 ==> !(numer == MinInt(w) && denom == -1))
  {
    if denom != 0 then
      var rem := Rest(numer, denom);
      if rem != 0 then if (rem < 0) != (denom < 0) then rem + denom else rem
      else 0
    else numer
  }

  // The modulus has the sign of the divisor: it is that of the mathematical
  // modulus, mirrored for a negative divisor.
  lemma ModIntExact(numer: int, denom: int, w: nat)
    requires w >= 1 && IsInt(numer, w) && IsInt(denom, w) && (w >= 32 ==> !(numer == MinInt(w) && denom == -1))
    ensures denom > 0 ==> ModInt(numer, denom, w) == numer % denom
    ensures denom < 0 ==> ModInt(numer, denom, w) == 0 - (0 - numer) % (0 - denom)
    ensures denom == 0 ==> ModInt(numer, denom, w) == numer
  {
    if denom != 0 {
      var m, d := Size(numer), Size(denom);
      Steps(m, d);
      ModNegated(m, d);
    }
  }

  lemma ModNegated(m: nat, d: nat)
    requires d >= 1
    ensures (0 - m) % d == if m % d == 0 then 0 else d - m % d
  {
    Steps(m, d);
    var q, r := m / d, m % d;
    if r == 0 {
      Remainder(0 - m, d, 0 - q);
    } else {
      Remainder(0 - m, d, 0 - q - 1);
    }
  }
}
