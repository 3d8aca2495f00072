/** The number of elements of an array of given dimensions. */
module Products {

  function Prod(dims: seq<nat>): nat {
    if dims == [] then 1 else dims[0] * Prod(dims[1..])
  }

  lemma {:induction false} ProdConcat(a: seq<nat>, b: seq<nat>)
    ensures Prod(a + b) == Prod(a) * Prod(b)
  {
    if a == [] {
      assert a + b == b;
    } else {
      assert (a + b)[1..] == a[1..] + b;
      ProdConcat(a[1..], b);
      assert a[0] * (Prod(a[1..]) * Prod(b)) == (a[0] * Prod(a[1..])) * Prod(b);
    }
  }

  lemma {:induction false} ProdPositive(dims: seq<nat>)
    requires forall i :: 0 <= i < |dims| ==> dims[i] >= 1
    ensures Prod(dims) >= 1
  {
    if dims != [] {
      ProdPositive(dims[1..]);
    }
  }
}
