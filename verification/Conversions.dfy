/** Conversions between the integer classes. */
module Conversions {
  import opened MachineWords
  import opened IntegerOps

  datatype IntClass = IntN(width: nat) | UIntN(width: nat)

  function Lowest(c: IntClass): int
    requires c.width >= 1
  {
    match c
    case IntN(w) => MinInt(w)
    case UIntN(_) => 0
  }

  function Highest(c: IntClass): int
    requires c.width >= 1
  {
    match c
    case IntN(w) => MaxInt(w)
    case UIntN(w) => MaxUInt(w)
  }

  // What a cast makes of a number.
  function Cast(x: int, dst: IntClass): int
    requires dst.width >= 1
  {
    match dst
    case IntN(w) => Signed(Wrapped(x, w), w)
    case UIntN(w) => Wrapped(x, w)
  }

  // From a wider class the value is limited; from a class at most as wide it is
  // cast, but for a negative number that becomes unsigned.
  function Convert(x: int, src: IntClass, dst: IntClass): int
    requires src.width >= 1 && dst.width >= 1 && Lowest(src) <= x <= Highest(src)
  {
    if src.width > dst.width then
      if x > Highest(dst) then Highest(dst)
      else if src.IntN? && dst.IntN? && x < Lowest(dst) then Lowest(dst)
      else if src.IntN? && dst.UIntN? && x < 0 then 0
      else Cast(x, dst)
    else if src.IntN? && dst.UIntN? && x < 0 then 0
    else Cast(x, dst)
  }

  // A conversion saturates except for one case: a large unsigned number wraps when
  // it becomes signed of the same width, to the number of the same bits.
  lemma ConvertExact(x: int, src: IntClass, dst: IntClass)
    requires src.width >= 1 && dst.width >= 1 && Lowest(src) <= x <= Highest(src)
    ensures Lowest(dst) <= Highest(dst)
    ensures Convert(x, src, dst) == Clamp(x, Lowest(dst), Highest(dst))
      <==> !(src.UIntN? && dst.IntN? && src.width == dst.width && x > Highest(dst))
    ensures src.UIntN? && dst.IntN? && src.width == dst.width && x > Highest(dst) ==> Convert(x, src, dst) == x - Pow2(src.width)
    ensures Lowest(dst) <= Convert(x, src, dst) <= Highest(dst)
  {
    hide Wrapped, Pow2;
    var m, n := src.width, dst.width;
    Doubles(m);
    Doubles(n);
    Pow2Grows(m - 1, n - 1);
    Pow2Grows(n - 1, m - 1);
    if m < n {
      Pow2Grows(m, n - 1);
    }
  }

  lemma Doubles(w: nat)
    requires w >= 1
    ensures Pow2(w) == 2 * Pow2(w - 1)
  {}

  lemma {:induction false} Pow2Grows(a: nat, b: nat)
    ensures a <= b ==> Pow2(a) <= Pow2(b)
  {
    if a < b {
      Pow2Grows(a, b - 1);
    }
  }
}
