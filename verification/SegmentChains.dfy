/** What appending to and cutting out of a doubly linked chain do to its links. */
module SegmentChains {
  import opened SegmentModel
  import opened SegmentInvariant

  // The members of `c` keep their numbers.
  ghost predicate SameNums(m: map<Obj, Meta>, m': map<Obj, Meta>, c: seq<Obj>) {
    forall i :: 0 <= i < |c| ==> c[i] in m && c[i] in m' && m'[c[i]].num == m[c[i]].num
  }

  // The members of `c` other than number `k` keep their forward links.
  ghost predicate SameNext(m: map<Obj, Meta>, m': map<Obj, Meta>, c: seq<Obj>, k: int)
    requires SameNums(m, m', c)
  {
    forall i :: 0 <= i < |c| && i != k ==> m'[c[i]].next == m[c[i]].next
  }

  ghost predicate SamePrev(m: map<Obj, Meta>, m': map<Obj, Meta>, c: seq<Obj>, k: int)
    requires SameNums(m, m', c)
  {
    forall i :: 0 <= i < |c| && i != k ==> m'[c[i]].prev == m[c[i]].prev
  }

  lemma AppendForward(first: int, first': int, m: map<Obj, Meta>, m': map<Obj, Meta>, c: seq<Obj>, o: Obj)
    requires Forward(first, m, c) && SameNums(m, m', c) && SameNext(m, m', c, |c| - 1)
    requires o in m' && m'[o].next == NO_SEG
    requires if c == [] then first' == m'[o].num else first' == first && m'[c[|c| - 1]].next == m'[o].num
    ensures Forward(first', m', c + [o])
  {
    var c' := c + [o];
    forall i | 0 <= i < |c'| - 1 ensures m'[c'[i]].next == m'[c'[i + 1]].num {
      if i < |c| - 1 {
        assert m[c[i]].next == m[c[i + 1]].num;
      }
    }
  }

  lemma AppendBackward(last: int, m: map<Obj, Meta>, c: seq<Obj>, o: Obj)
    requires Backward(last, m, c) && o in m && m[o].prev == last
    ensures Backward(m[o].num, m, c + [o])
  {
    var c' := c + [o];
    forall i | 0 <= i < |c'| - 1 ensures m[c'[i + 1]].prev == m[c'[i]].num {
      if i < |c| - 1 {
        assert m[c[i + 1]].prev == m[c[i]].num;
      }
    }
  }

  lemma CutForward(first: int, first': int, m: map<Obj, Meta>, m': map<Obj, Meta>, c: seq<Obj>, k: nat)
    requires Forward(first, m, c) && k < |c| && SameNums(m, m', c) && SameNext(m, m', c, k - 1)
    requires if k == 0 then first' == m[c[0]].next else first' == first && m'[c[k - 1]].next == m[c[k]].next
    ensures Forward(first', m', c[..k] + c[k + 1..])
  {
    var c' := c[..k] + c[k + 1..];
    forall i | 0 <= i < |c'| ensures c'[i] == c[if i < k then i else i + 1] {}
    if k + 1 < |c| {
      assert m[c[k]].next == m[c[k + 1]].num;
    }
    forall i | 0 <= i < |c'| - 1 ensures m'[c'[i]].next == m'[c'[i + 1]].num {
      var j := if i < k then i else i + 1;
      assert m[c[j]].next == m[c[j + 1]].num;
    }
  }

  lemma CutBackward(last: int, last': int, m: map<Obj, Meta>, m': map<Obj, Meta>, c: seq<Obj>, k: nat)
    requires Backward(last, m, c) && k < |c| && SameNums(m, m', c) && SamePrev(m, m', c, k + 1)
    requires if k == |c| - 1 then last' == m[c[k]].prev else last' == last && m'[c[k + 1]].prev == m[c[k]].prev
    ensures Backward(last', m', c[..k] + c[k + 1..])
  {
    var c' := c[..k] + c[k + 1..];
    forall i | 0 <= i < |c'| ensures c'[i] == c[if i < k then i else i + 1] {}
    if k > 0 {
      var i := k - 1;
      assert m[c[i + 1]].prev == m[c[i]].num;
    }
    forall i | 0 <= i < |c'| - 1 ensures m'[c'[i + 1]].prev == m'[c'[i]].num {
      var j := if i < k then i else i + 1;
      assert m[c[j + 1]].prev == m[c[j]].num;
    }
  }
}
