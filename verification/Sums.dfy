/** The sum of the values of a finite table, and how one entry changes it. */
module Sums {

  lemma MinExists(ks: set<nat>)
    requires ks != {}
    ensures exists k :: k in ks && forall x :: x in ks ==> k <= x
  {
    var k :| k in ks;
    var rest := ks - {k};
    if rest == {} {
      assert ks == {k};
    } else {
      MinExists(rest);
      var m :| m in rest && forall x :: x in rest ==> m <= x;
      var least := if k < m then k else m;
      forall x | x in ks ensures least <= x {
        assert x == k || x in rest;
      }
      assert least in ks;
    }
  }

  ghost function Min(ks: set<nat>): (k: nat)
    requires ks != {}
    ensures k in ks && forall x :: x in ks ==> k <= x
  {
    MinExists(ks);
    var k :| k in ks && forall x :: x in ks ==> k <= x;
    k
  }

  ghost function Sum(m: map<nat, nat>): (total: nat)
    decreases |m|
  {
    if m.Keys == {} then 0
    else
      var k := Min(m.Keys);
      m[k] + Sum(m - {k})
  }

  // Taking out any entry, not only the least, takes out its value.
  lemma {:induction false} SumDrop(m: map<nat, nat>, k: nat)
    requires k in m
    ensures Sum(m) == m[k] + Sum(m - {k})
    decreases |m|
  {
    var least := Min(m.Keys);
    if k != least {
      var m1, m2 := m - {least}, m - {k};
      SumDrop(m1, k);
      assert least in m2.Keys && forall x :: x in m2.Keys ==> least <= x;
      assert Min(m2.Keys) == least;
      assert m1 - {k} == m2 - {least};
    }
  }

  lemma SumPut(m: map<nat, nat>, k: nat, v: nat)
    requires k !in m
    ensures Sum(m[k := v]) == Sum(m) + v
  {
    SumDrop(m[k := v], k);
    assert m[k := v] - {k} == m;
  }
}
