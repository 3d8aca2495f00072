/** The doubly linked list: what its links denote, and what appending and
    removing do to them. */
module SegmentLists {
  import opened SegmentModel
  import opened SegmentInvariant
  import opened SegmentFrames

  // ----- sequences without repetition -----

  lemma {:induction false} WithoutAt(c: seq<Obj>, i: nat)
    requires NoDup(c) && i < |c|
    ensures Without(c, c[i]) == c[..i] + c[i + 1..]
  {
    if i > 0 {
      assert c[0] != c[i];
      assert NoDup(c[1..]);
      WithoutAt(c[1..], i - 1);
      assert c[1..][..i - 1] == c[1..i];
      assert c[1..][i..] == c[i + 1..];
      assert [c[0]] + c[1..i] == c[..i];
    }
  }

  lemma {:induction false} WithoutMembers(c: seq<Obj>, o: Obj)
    requires NoDup(c)
    ensures NoDup(Without(c, o))
    ensures forall x :: x in Without(c, o) <==> x in c && x != o
    ensures o in c ==> |Without(c, o)| == |c| - 1
  {
    if c != [] && c[0] != o {
      var r := c[1..];
      WithoutMembers(r, o);
      var w := Without(r, o);
      forall i, j | 0 <= i < j < |[c[0]] + w| ensures ([c[0]] + w)[i] != ([c[0]] + w)[j] {
        if i == 0 {
          assert w[j - 1] in w;
          assert w[j - 1] in r;
        }
      }
      forall x ensures x in [c[0]] + w <==> x in c && x != o {
        assert x in c <==> x == c[0] || x in r;
      }
    } else if c != [] {
      var r := c[1..];
      forall x ensures x in r <==> x in c && x != o {
        if x in r {
          var k :| 0 <= k < |r| && r[k] == x;
          assert c[k + 1] == x;
        }
      }
    }
  }

  // ----- listed segments -----

  lemma ListedNamed(s: State, o: Obj)
    requires Inv(s) && (o in s.fchain || o in s.bchain)
    ensures o in s.meta && !s.meta[o].ctr.flag && s.meta[o].trackers != {} && NamedAs(s.names, s.meta[o].num, o) && 0 <= s.meta[o].num
  {
    hide Tables, Held, LedgerOk, LockOk, Procs;
    GetSegment(s, o);
    assert NameOk(s, s.meta[o].num);
  }

  // Listed segments have distinct numbers.
  lemma ListedDistinct(s: State, o: Obj, o': Obj)
    requires Inv(s) && (o in s.fchain || o in s.bchain) && (o' in s.fchain || o' in s.bchain)
    requires o in s.meta && o' in s.meta && s.meta[o].num == s.meta[o'].num
    ensures o == o'
  {
    hide Tables, Held, LedgerOk, LockOk, Procs, Counts, Places, Names, ListOk;
    ListedNamed(s, o);
    ListedNamed(s, o');
  }

  // A table entry for the number of a listed segment denotes that segment.
  lemma EntryListed(s: State, p: Proc, o: Obj)
    requires Inv(s) && p in s.procs && (o in s.fchain || o in s.bchain) && o in s.meta && s.meta[o].num in s.procs[p].table
    ensures s.procs[p].table[s.meta[o].num] == o
  {
    hide Held, LedgerOk, LockOk, Procs, Places, Names, ListOk;
    ListedNamed(s, o);
    EntryCurrent(s, p, s.meta[o].num);
  }

  // Any table entry denotes the segment that carries the name now.
  lemma EntryCurrent(s: State, p: Proc, n: int)
    requires Inv(s) && p in s.procs && n in s.procs[p].table
    ensures n in s.names && s.names[n] == s.procs[p].table[n]
  {
    hide Held, LedgerOk, LockOk, Procs, Names, ListOk;
    GetEntry(s, p, n);
    GetSegment(s, s.procs[p].table[n]);
  }
}
