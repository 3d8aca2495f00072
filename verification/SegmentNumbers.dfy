/** The search for a free segment number: exclusive creation is tried for one
    number after the other, from the one after the last shared number, around
    the end of the range. */
module SegmentNumbers {
  import opened SegmentModel

  predicate InRange(n: int) {
    0 <= n <= SEG_MAX
  }

  // The number tried at attempt `k`.
  function Tried(last: int, k: nat): int {
    if k == 0 then last else NextNumber(Tried(last, k - 1))
  }

  // The attempt that reaches `n` from `last`.
  function Reach(last: int, n: int): int {
    if n > last then n - last else n - last + SEG_MAX + 1
  }

  lemma {:induction false} TriedIs(last: int, k: nat)
    requires last == NO_SEG || InRange(last)
    requires 1 <= k <= SEG_MAX + 1
    ensures InRange(Tried(last, k))
    ensures Tried(last, k) == if last + k <= SEG_MAX then last + k else last + k - SEG_MAX - 1
    ensures Reach(last, Tried(last, k)) == k
  {
    if k > 1 {
      TriedIs(last, k - 1);
    }
  }

  // Every number is reached, within one round.
  lemma ReachesAll(last: int, n: int)
    requires (last == NO_SEG || InRange(last)) && InRange(n)
    ensures 1 <= Reach(last, n) <= SEG_MAX + 1 && Tried(last, Reach(last, n)) == n
  {
    TriedIs(last, Reach(last, n));
  }

  lemma {:induction false} TriedInRange(last: int, k: nat)
    requires (last == NO_SEG || InRange(last)) && k >= 1
    ensures InRange(Tried(last, k))
  {
    if k > 1 {
      TriedInRange(last, k - 1);
    }
  }

  lemma TriedNext(last: int, k: nat)
    ensures Tried(last, 0) == last && Tried(last, k + 1) == NextNumber(Tried(last, k))
  {}

  // With `taken(k)` the numbers that exist at attempt `k`, the search ends at the
  // first attempt that finds its number free.
  method FindFreeNumber(last: int, taken: nat -> set<int>) returns (n: int, ghost k: nat)
    requires last == NO_SEG || InRange(last)
    requires exists j :: 1 <= j && Tried(last, j) !in taken(j)
    ensures 1 <= k && n == Tried(last, k) && InRange(n) && n !in taken(k)
    ensures forall j :: 1 <= j < k ==> Tried(last, j) in taken(j)
  {
    hide Tried, NextNumber;
    ghost var end :| 1 <= end && Tried(last, end) !in taken(end);
    TriedNext(last, 0);
    n := NextNumber(last);
    var i := 1;
    TriedInRange(last, 1);
    while n in taken(i)
      invariant 1 <= i <= end && n == Tried(last, i) && InRange(n)
      invariant forall j :: 1 <= j < i ==> Tried(last, j) in taken(j)
      decreases end - i
    {
      TriedNext(last, i);
      n := NextNumber(n);
      i := i + 1;
      TriedInRange(last, i);
    }
    k := i;
  }

  // A number that stays free is reached within one round, whatever the others do.
  lemma FreeInRound(last: int, taken: nat -> set<int>, m: int)
    requires (last == NO_SEG || InRange(last)) && InRange(m) && forall j :: 1 <= j <= SEG_MAX + 1 ==> m !in taken(j)
    ensures exists j :: 1 <= j <= SEG_MAX + 1 && Tried(last, j) !in taken(j)
  {
    ReachesAll(last, m);
    assert Tried(last, Reach(last, m)) !in taken(Reach(last, m));
  }

  // As long as every number is taken, each attempt finds its number taken.
  lemma NoneFree(last: int, taken: nat -> set<int>, k: nat)
    requires (last == NO_SEG || InRange(last)) && k >= 1 && forall m :: InRange(m) ==> m in taken(k)
    ensures InRange(Tried(last, k)) && Tried(last, k) in taken(k)
  {
    TriedInRange(last, k);
  }
}
