/** The chained hash table of segment nodes: an array of buckets, each the head of
    a singly linked chain, that grows as segments are added.  It refines a
    multimap from keys to segments in which the entries of a key keep the order
    in which they were added. */
module HashTable {
  import opened Options

  const INIT_SIZE: nat := 64
  const WRAP32: nat := 0x1_0000_0000
  const MAX_SIZE: nat := 0x8000_0000

  class TableNode<K, V> {
    const key: K
    const seg: V
    var next: TableNode?<K, V>

    constructor (key: K, seg: V)
      ensures this.key == key && this.seg == seg && next == null
    {
      this.key, this.seg, next := key, seg, null;
    }
  }

  // `head` leads through `next` to the nodes of `c` and no further.
  ghost predicate Linked<K, V>(head: TableNode?<K, V>, c: seq<TableNode<K, V>>)
    reads c`next
  {
    && head == (if c == [] then null else c[0])
    && (c != [] ==> c[|c| - 1].next == null)
    && (forall i :: 0 <= i < |c| - 1 ==> c[i].next == c[i + 1])
  }

  ghost predicate Distinct<T>(c: seq<T>) {
    forall i, j :: 0 <= i < j < |c| ==> c[i] != c[j]
  }

  // The segments filed under `k` along a chain.
  ghost function Select<K, V>(c: seq<TableNode<K, V>>, k: K): seq<V> {
    if c == [] then []
    else if c[|c| - 1].key == k then Select(c[..|c| - 1], k) + [c[|c| - 1].seg]
    else Select(c[..|c| - 1], k)
  }

  ghost function Nodes<K, V>(chains: seq<seq<TableNode<K, V>>>): set<TableNode<K, V>> {
    set b, i | 0 <= b < |chains| && 0 <= i < |chains[b]| :: chains[b][i]
  }

  // Every node is in the chain of its key, once.
  ghost predicate Filed<K, V>(chains: seq<seq<TableNode<K, V>>>, hash: K -> nat) {
    && |chains| > 0
    && (forall b :: 0 <= b < |chains| ==> Distinct(chains[b]))
    && (forall b, i :: 0 <= b < |chains| && 0 <= i < |chains[b]| ==> hash(chains[b][i].key) % |chains| == b)
  }

  // The chains hang off the buckets.
  ghost predicate Hung<K, V>(buckets: array<TableNode?<K, V>>, chains: seq<seq<TableNode<K, V>>>)
    reads buckets, Nodes(chains)`next
  {
    |chains| == buckets.Length && forall b :: 0 <= b < |chains| ==> Linked(buckets[b], chains[b])
  }

  function NewSize(num: nat): nat {
    if num < INIT_SIZE then INIT_SIZE else (num * 2) % WRAP32
  }

  // Sizes the table can have.
  predicate SizeOk(n: nat) {
    n == INIT_SIZE || (2 * INIT_SIZE <= n < WRAP32 && n % 2 == 0)
  }

  // Growing when half full never shrinks the table and leaves it larger than
  // the number of segments.
  lemma GrowsEnough(size: nat, num: nat)
    requires SizeOk(size) && num < MAX_SIZE
    ensures num < size / 2 ==> num < size
    ensures num >= size / 2 && size < MAX_SIZE ==> size <= NewSize(num) && num < NewSize(num) && SizeOk(NewSize(num))
  {}

  lemma NewSizeOk(num: nat)
    requires num < MAX_SIZE
    ensures SizeOk(NewSize(num)) && NewSize(num) > 0
  {}

  // ----- hanging a node at the end of its chain -----

  method AppendNode<K, V>(buckets: array<TableNode?<K, V>>, node: TableNode<K, V>, hash: K -> nat, ghost chains: seq<seq<TableNode<K, V>>>)
    returns (ghost after: seq<seq<TableNode<K, V>>>)
    requires Hung(buckets, chains) && Filed(chains, hash) && node !in Nodes(chains)
    modifies buckets, Nodes(chains)`next, node`next
    ensures
      var b := hash(node.key) % |chains|;
      after == chains[b := chains[b] + [node]]
    ensures Hung(buckets, after) && Filed(after, hash)
  {
    var b := hash(node.key) % buckets.Length;
    ghost var c := chains[b];
    after := chains[b := c + [node]];
    AppendFiled(chains, node, hash);
    if buckets[b] == null {
      buckets[b] := node;
    } else {
      var curr := buckets[b];
      ghost var i := 0;
      while curr.next != null
        invariant i < |c| && curr == c[i]
        decreases |c| - i
      {
        assert c[i].next == c[i + 1];
        curr := curr.next;
        i := i + 1;
      }
      assert i == |c| - 1;
      curr.next := node;
    }
    node.next := null;
    forall x | 0 <= x < |after| ensures Linked(buckets[x], after[x]) {
    }
  }

  lemma AppendFiled<K, V>(chains: seq<seq<TableNode<K, V>>>, node: TableNode<K, V>, hash: K -> nat)
    requires Filed(chains, hash) && node !in Nodes(chains)
    ensures
      var b := hash(node.key) % |chains|;
      Filed(chains[b := chains[b] + [node]], hash)
  {
    var b := hash(node.key) % |chains|;
    forall i | 0 <= i < |chains[b]| ensures chains[b][i] != node {
      assert chains[b][i] in Nodes(chains);
    }
  }

  // ----- what is filed under a key -----

  ghost function Filing<K, V>(chains: seq<seq<TableNode<K, V>>>, hash: K -> nat, k: K): seq<V> {
    if chains == [] then [] else Select(chains[hash(k) % |chains|], k)
  }

  lemma SelectAppend<K, V>(c: seq<TableNode<K, V>>, node: TableNode<K, V>, k: K)
    ensures Select(c + [node], k) == Select(c, k) + (if node.key == k then [node.seg] else [])
  {
    assert (c + [node])[..|c|] == c;
  }

  // Only the key of the node appended gains an entry.
  lemma FilingAppend<K, V>(chains: seq<seq<TableNode<K, V>>>, node: TableNode<K, V>, hash: K -> nat, k: K)
    requires |chains| > 0
    ensures
      var b := hash(node.key) % |chains|;
      Filing(chains[b := chains[b] + [node]], hash, k) == Filing(chains, hash, k) + (if node.key == k then [node.seg] else [])
  {
    SelectAppend(chains[hash(node.key) % |chains|], node, k);
  }

  // Cutting out the first node of a segment takes out the first entry of its
  // key for it, and no other entry.
  lemma {:induction false} SelectCut<K, V>(c: seq<TableNode<K, V>>, i: nat, k: K)
    requires i < |c| && forall j :: 0 <= j < i ==> c[j].seg != c[i].seg
    ensures Select(c[..i] + c[i + 1..], k) == if c[i].key == k then Without(Select(c, k), c[i].seg) else Select(c, k)
    decreases |c|
  {
    var n := |c| - 1;
    var cut := c[..i] + c[i + 1..];
    if i < n {
      var d := c[..n];
      SelectCut(d, i, k);
      assert cut == (d[..i] + d[i + 1..]) + [c[n]];
      SelectAppend(d[..i] + d[i + 1..], c[n], k);
      if c[i].key == k && c[n].key == k {
        SelectHas(d, i);
        WithoutAppend(Select(d, k), c[n].seg, c[i].seg);
      }
    } else {
      assert cut == c[..n];
      if c[n].key == k {
        SelectMembers(c[..n], k);
        WithoutLast(Select(c[..n], k), c[n].seg);
      }
    }
  }

  // The sequence without its first occurrence of `x`.
  ghost function Without<T>(c: seq<T>, x: T): seq<T> {
    if c == [] then []
    else if c[0] == x then c[1..]
    else [c[0]] + Without(c[1..], x)
  }

  lemma {:induction false} WithoutAppend<T>(c: seq<T>, y: T, x: T)
    requires x in c
    ensures Without(c + [y], x) == Without(c, x) + [y]
  {
    assert (c + [y])[1..] == c[1..] + [y];
    if c[0] != x {
      WithoutAppend(c[1..], y, x);
    }
  }

  lemma {:induction false} WithoutLast<T>(c: seq<T>, x: T)
    requires x !in c
    ensures Without(c + [x], x) == c
  {
    if c != [] {
      assert (c + [x])[1..] == c[1..] + [x];
      WithoutLast(c[1..], x);
    }
  }

  lemma {:induction false} SelectMembers<K, V>(c: seq<TableNode<K, V>>, k: K)
    ensures forall s :: s in Select(c, k) ==> exists j :: 0 <= j < |c| && c[j].key == k && c[j].seg == s
  {
    if c != [] {
      var n := |c| - 1;
      SelectMembers(c[..n], k);
      forall s | s in Select(c, k) ensures exists j :: 0 <= j < |c| && c[j].key == k && c[j].seg == s {
        if s in Select(c[..n], k) {
          var j :| 0 <= j < |c[..n]| && c[..n][j].key == k && c[..n][j].seg == s;
          assert c[j].key == k;
        } else {
          assert c[n].key == k && c[n].seg == s;
        }
      }
    }
  }

  lemma {:induction false} SelectHas<K, V>(c: seq<TableNode<K, V>>, i: nat)
    requires i < |c|
    ensures c[i].seg in Select(c, c[i].key)
  {
    var n := |c| - 1;
    if i < n {
      SelectHas(c[..n], i);
    }
  }

  // The first entry of a chain under `k` is the oldest filed under it.
  lemma {:induction false} SelectFirst<K, V>(c: seq<TableNode<K, V>>, i: nat, k: K)
    requires i < |c| && c[i].key == k && forall j :: 0 <= j < i ==> c[j].key != k
    ensures Select(c, k) != [] && Select(c, k)[0] == c[i].seg
  {
    var n := |c| - 1;
    if i < n {
      SelectFirst(c[..n], i, k);
    } else {
      SelectNone(c[..n], k);
    }
  }

  lemma {:induction false} SelectNone<K, V>(c: seq<TableNode<K, V>>, k: K)
    requires forall j :: 0 <= j < |c| ==> c[j].key != k
    ensures Select(c, k) == []
  {
    if c != [] {
      SelectNone(c[..|c| - 1], k);
    }
  }

  // ----- moving every node to a new array -----

  // The nodes before position (h, i) have been moved to `moved`.
  ghost predicate Moving<K(!new), V>(chains: seq<seq<TableNode<K, V>>>, moved: seq<seq<TableNode<K, V>>>, hash: K -> nat, h: nat, i: nat)
    requires h <= |chains| && (h < |chains| ==> i <= |chains[h]|)
  {
    && Nodes(moved) <= Nodes(chains)
    && (forall x :: x in Nodes(moved) ==> hash(x.key) % |chains| < h || (h < |chains| && hash(x.key) % |chains| == h && x in chains[h][..i]))
    && (forall k :: Filing(moved, hash, k) == Part(chains, hash, h, i, k))
  }

  ghost function Part<K, V>(chains: seq<seq<TableNode<K, V>>>, hash: K -> nat, h: nat, i: nat, k: K): seq<V>
    requires h <= |chains| && (h < |chains| ==> i <= |chains[h]|)
  {
    if chains == [] then []
    else
      var b := hash(k) % |chains|;
      if b < h then Select(chains[b], k) else if b == h then Select(chains[b][..i], k) else []
  }

  lemma MoveOne<K(!new), V>(chains: seq<seq<TableNode<K, V>>>, moved: seq<seq<TableNode<K, V>>>, hash: K -> nat, h: nat, i: nat)
    requires Filed(chains, hash) && Filed(moved, hash) && h < |chains| && i < |chains[h]| && Moving(chains, moved, hash, h, i)
    ensures chains[h][i] !in Nodes(moved)
    ensures
      var b := hash(chains[h][i].key) % |moved|;
      Moving(chains, moved[b := moved[b] + [chains[h][i]]], hash, h, i + 1)
  {
    hide Filing, Part, Filed;
    FiledSize(moved, hash);
    var node, c := chains[h][i], chains[h];
    var b := hash(node.key) % |moved|;
    var after := moved[b := moved[b] + [node]];
    NotMoved(chains, moved, hash, h, i);
    AppendNodes(moved, node, hash);
    assert node in Nodes(chains);
    forall x | x in c[..i] ensures x in c[..i + 1] {}
    assert node == c[..i + 1][i];
    forall k ensures Filing(after, hash, k) == Part(chains, hash, h, i + 1, k) {
      FilingAppend(moved, node, hash, k);
      PartNext(chains, hash, h, i, k);
    }
  }

  lemma NotMoved<K(!new), V>(chains: seq<seq<TableNode<K, V>>>, moved: seq<seq<TableNode<K, V>>>, hash: K -> nat, h: nat, i: nat)
    requires Filed(chains, hash) && h < |chains| && i < |chains[h]| && Moving(chains, moved, hash, h, i)
    ensures chains[h][i] !in Nodes(moved) && hash(chains[h][i].key) % |chains| == h
  {
    hide Filing, Part, Nodes;
    Apart(chains[h], i);
    assert chains[h][i] !in chains[h][..i];
  }

  // One node more of the chain of bucket `h`.
  lemma PartNext<K, V>(chains: seq<seq<TableNode<K, V>>>, hash: K -> nat, h: nat, i: nat, k: K)
    requires Filed(chains, hash) && h < |chains| && i < |chains[h]|
    ensures
      var node := chains[h][i];
      Part(chains, hash, h, i + 1, k) == Part(chains, hash, h, i, k) + (if k == node.key then [node.seg] else [])
  {
    var node, c := chains[h][i], chains[h];
    SelectAppend(c[..i], node, k);
    assert c[..i] + [node] == c[..i + 1];
  }

  lemma NextBucket<K(!new), V>(chains: seq<seq<TableNode<K, V>>>, moved: seq<seq<TableNode<K, V>>>, hash: K -> nat, h: nat)
    requires Filed(chains, hash) && h < |chains| && Moving(chains, moved, hash, h, |chains[h]|)
    ensures Moving(chains, moved, hash, h + 1, 0)
  {
    assert chains[h][..|chains[h]|] == chains[h];
    forall k ensures Part(chains, hash, h, |chains[h]|, k) == Part(chains, hash, h + 1, 0, k) {
    }
  }

  lemma EmptyHung<K, V>(table: array<TableNode?<K, V>>, moved: seq<seq<TableNode<K, V>>>, hash: K -> nat)
    requires |moved| == table.Length > 0 && forall b :: 0 <= b < |moved| ==> moved[b] == [] && table[b] == null
    ensures Nodes(moved) == {} && Hung(table, moved) && Filed(moved, hash)
  {}

  lemma AllLinked<K, V>(buckets: array<TableNode?<K, V>>, chains: seq<seq<TableNode<K, V>>>)
    requires Hung(buckets, chains)
    ensures |chains| == buckets.Length && forall b :: 0 <= b < |chains| ==> Linked(buckets[b], chains[b])
  {}

  lemma NoneMoved<K(!new), V>(chains: seq<seq<TableNode<K, V>>>, moved: seq<seq<TableNode<K, V>>>, hash: K -> nat)
    requires |chains| > 0 && |moved| > 0 && forall b :: 0 <= b < |moved| ==> moved[b] == []
    ensures Moving(chains, moved, hash, 0, 0)
  {
    forall k ensures Filing(moved, hash, k) == Part(chains, hash, 0, 0, k) {
      assert moved[hash(k) % |moved|] == [];
    }
  }

  lemma AllMoved<K(!new), V>(chains: seq<seq<TableNode<K, V>>>, moved: seq<seq<TableNode<K, V>>>, hash: K -> nat)
    requires |chains| > 0 && Moving(chains, moved, hash, |chains|, 0)
    ensures forall k :: Filing(moved, hash, k) == Filing(chains, hash, k)
  {
    forall k ensures Filing(moved, hash, k) == Filing(chains, hash, k) {
      assert Filing(moved, hash, k) == Part(chains, hash, |chains|, 0, k);
    }
  }

  lemma MovedWithin<K(!new), V>(chains: seq<seq<TableNode<K, V>>>, moved: seq<seq<TableNode<K, V>>>, hash: K -> nat, h: nat)
    requires h <= |chains| && Moving(chains, moved, hash, h, 0)
    ensures Nodes(moved) <= Nodes(chains)
  {}

  lemma ChainWithin<K, V>(chains: seq<seq<TableNode<K, V>>>, h: nat)
    requires h < |chains|
    ensures forall x :: x in chains[h] ==> x in Nodes(chains)
  {}

  // The chains after number `h` have no node among the moved ones, nor in chain
  // `h`.
  lemma LaterApart<K(!new), V>(chains: seq<seq<TableNode<K, V>>>, moved: seq<seq<TableNode<K, V>>>, hash: K -> nat, h: nat)
    requires Filed(chains, hash) && h < |chains| && Moving(chains, moved, hash, h, 0)
    ensures forall b, i :: h < b < |chains| && 0 <= i < |chains[b]| ==> chains[b][i] !in Nodes(moved) && chains[b][i] !in chains[h]
  {}

  lemma Unmoved<K(!new), V>(chains: seq<seq<TableNode<K, V>>>, moved: seq<seq<TableNode<K, V>>>, hash: K -> nat, h: nat, i: nat)
    requires Filed(chains, hash) && h < |chains| && i < |chains[h]| && Moving(chains, moved, hash, h, i)
    ensures forall j :: i <= j < |chains[h]| ==> chains[h][j] !in Nodes(moved)
    ensures forall j :: i < j < |chains[h]| ==> chains[h][j] != chains[h][i]
  {
    assert forall j :: i <= j < |chains[h]| ==> chains[h][j] !in chains[h][..i];
  }

  // Moves the nodes of one old chain, in order.
  method MoveChain<K(!new), V>(table: array<TableNode?<K, V>>, head: TableNode?<K, V>, hash: K -> nat,
                               ghost chains: seq<seq<TableNode<K, V>>>, ghost moved: seq<seq<TableNode<K, V>>>, ghost h: nat)
    returns (ghost after: seq<seq<TableNode<K, V>>>)
    requires Filed(chains, hash) && h < |chains| && Linked(head, chains[h])
    requires Hung(table, moved) && Filed(moved, hash) && Moving(chains, moved, hash, h, 0)
    modifies table, Nodes(moved)`next, chains[h]`next
    ensures Hung(table, after) && Filed(after, hash) && Moving(chains, after, hash, h + 1, 0)
    ensures |after| == |moved|
  {
    hide Filed, Hung, Moving, Filing, Select;
    FiledSize(moved, hash);
    ghost var c := chains[h];
    after := moved;
    var curr := head;
    ghost var i := 0;
    while curr != null
      invariant i <= |c| && curr == (if i == |c| then null else c[i])
      invariant Hung(table, after) && Filed(after, hash) && Moving(chains, after, hash, h, i) && |after| == |moved| > 0
      invariant forall x :: x in Nodes(after) ==> x in Nodes(moved) || x in c
      invariant forall j :: i <= j < |c| - 1 ==> c[j].next == c[j + 1]
      invariant i < |c| ==> c[|c| - 1].next == null
      decreases |c| - i
    {
      var next := curr.next;
      Unmoved(chains, after, hash, h, i);
      MoveOne(chains, after, hash, h, i);
      FiledSize(after, hash);
      AppendNodes(after, curr, hash);
      after := AppendNode(table, curr, hash, after);
      curr := next;
      i := i + 1;
    }
    NextBucket(chains, after, hash, h);
  }

  // Moves every node to `table`, bucket by bucket.
  method MoveAll<K(!new), V>(buckets: array<TableNode?<K, V>>, table: array<TableNode?<K, V>>, hash: K -> nat,
                             ghost chains: seq<seq<TableNode<K, V>>>)
    returns (ghost moved: seq<seq<TableNode<K, V>>>)
    requires Hung(buckets, chains) && Filed(chains, hash)
    requires table != buckets && table.Length > 0 && forall b :: 0 <= b < table.Length ==> table[b] == null
    modifies table, Nodes(chains)`next
    ensures Hung(table, moved) && Filed(moved, hash) && Nodes(moved) <= Nodes(chains)
    ensures forall k :: Filing(moved, hash, k) == Filing(chains, hash, k)
  {
    hide Filed, Hung, Moving, Filing, Select, Linked;
    FiledSize(chains, hash);
    AllLinked(buckets, chains);
    moved := seq(table.Length, _ => []);
    EmptyHung(table, moved, hash);
    NoneMoved(chains, moved, hash);
    var h := 0;
    while h < buckets.Length
      invariant h <= buckets.Length == |chains|
      invariant Hung(table, moved) && Filed(moved, hash) && Moving(chains, moved, hash, h, 0)
      invariant forall b :: h <= b < |chains| ==> Linked(buckets[b], chains[b])
    {
      LaterApart(chains, moved, hash, h);
      MovedWithin(chains, moved, hash, h);
      ChainWithin(chains, h);
      moved := MoveChain(table, buckets[h], hash, chains, moved, h);
      h := h + 1;
    }
    MovedWithin(chains, moved, hash, h);
    AllMoved(chains, moved, hash);
  }

  lemma FiledSize<K, V>(chains: seq<seq<TableNode<K, V>>>, hash: K -> nat)
    requires Filed(chains, hash)
    ensures |chains| > 0
  {}

  class Table<K(==,!new), V(==)> {
    var buckets: array?<TableNode?<K, V>>
    const hash: K -> nat
    ghost var chains: seq<seq<TableNode<K, V>>>

    ghost predicate Valid()
      reads this`buckets, this`chains, buckets, Nodes(chains)`next
    {
      if buckets == null then chains == []
      else SizeOk(buckets.Length) && Hung(buckets, chains) && Filed(chains, hash)
    }

    // The objects the table is made of.
    ghost function Repr(): set<object>
      reads this`buckets, this`chains
    {
      {this} + (if buckets == null then {} else {buckets}) + Nodes(chains)
    }

    // The segments filed under `k`, oldest first.
    ghost function All(k: K): seq<V>
      reads this`chains
    {
      Filing(chains, hash, k)
    }

    function Size(): nat
      reads this`buckets
    {
      if buckets == null then 0 else buckets.Length
    }

    constructor (hash: K -> nat)
      ensures Valid() && buckets == null && fresh(Repr()) && this.hash == hash
      ensures forall k :: All(k) == []
    {
      this.hash, buckets, chains := hash, null, [];
    }

    method Initialize()
      requires Valid() && buckets == null
      modifies this`buckets, this`chains
      ensures Valid() && buckets != null && fresh(Repr() - {this}) && Size() == INIT_SIZE
      ensures forall k :: All(k) == []
    {
      buckets := new TableNode?<K, V>[INIT_SIZE](_ => null);
      chains := seq(INIT_SIZE, _ => []);
      assert Nodes(chains) == {};
    }

    // Files `seg` under `key` after growing the table for `num` segments.
    method Add(seg: V, key: K, num: nat)
      requires Valid() && buckets != null && num < MAX_SIZE
      modifies this`buckets, this`chains, buckets, Nodes(chains)`next
      ensures Valid() && buckets != null && fresh(Repr() - old(Repr()))
      ensures forall k :: All(k) == old(All(k)) + (if k == key then [seg] else [])
      ensures old(Size()) <= Size() && num < Size()
    {
      hide Filed, Hung, Filing, NewSize, SizeOk;
      var node := new TableNode(key, seg);
      GrowsEnough(buckets.Length, num);
      if num >= buckets.Length / 2 {
        Resize(num);
      }
      AddNode(node);
    }

    method AddNode(node: TableNode<K, V>)
      requires Valid() && buckets != null && node !in Nodes(chains)
      modifies this`chains, buckets, Nodes(chains)`next, node`next
      ensures Valid() && buckets == old(buckets) && Nodes(chains) == old(Nodes(chains)) + {node}
      ensures forall k :: All(k) == old(All(k)) + (if k == node.key then [node.seg] else [])
    {
      hide Filed, Hung, Filing, SizeOk, Nodes;
      ghost var before := chains;
      FiledSize(before, hash);
      AppendNodes(before, node, hash);
      chains := AppendNode(buckets, node, hash, chains);
      forall k ensures All(k) == Filing(before, hash, k) + (if k == node.key then [node.seg] else []) {
        FilingAppend(before, node, hash, k);
      }
    }

    // Moves every node to an array of the new size; what is filed under a key,
    // and in which order, stays.
    method Resize(num: nat)
      requires Valid() && buckets != null && num < MAX_SIZE
      modifies this`buckets, this`chains, buckets, Nodes(chains)`next
      ensures Valid() && buckets != null && Nodes(chains) <= old(Nodes(chains))
      ensures buckets == old(buckets) || fresh(buckets)
      ensures forall k :: All(k) == old(All(k))
      ensures Size() == if old(Size()) >= MAX_SIZE then old(Size()) else NewSize(num)
    {
      hide Filed, Hung, Moving, Filing, NewSize, SizeOk;
      if buckets.Length >= MAX_SIZE {
        return;
      }
      NewSizeOk(num);
      var table := new TableNode?<K, V>[NewSize(num)](_ => null);
      ghost var moved := MoveAll(buckets, table, hash, chains);
      buckets, chains := table, moved;
    }

    // Takes out the entry of `seg`, which is filed under `key` or nowhere.  A segment
    // that is not there is reported; with a single other node in its bucket, the search
    // would look behind that node before it notices.
    method Remove(seg: V, key: K) returns (ok: bool)
      requires Valid() && buckets != null
      requires forall k :: k != key ==> seg !in All(k)
      requires seg in All(key) || |chains| == 0 || |chains[hash(key) % |chains|]| != 1
      modifies this`chains, buckets, Nodes(chains)`next
      ensures Valid() && buckets == old(buckets) && Nodes(chains) <= old(Nodes(chains))
      ensures ok <==> seg in old(All(key))
      ensures forall k :: All(k) == if k == key && ok then Without(old(All(k)), seg) else old(All(k))
    {
      hide Filed, Filing, SizeOk, Without;
      FiledSize(chains, hash);
      var b := hash(key) % buckets.Length;
      ghost var c, at := chains[b], |chains[b]|;
      forall k | k != key ensures seg !in Filing(chains, hash, k) {
        assert seg !in All(k);
      }
      if seg in All(key) {
        at := FirstOf(chains, hash, seg, key);
      } else {
        NotThere(chains, hash, seg, b);
      }
      ApartInChain(chains, hash, b);
      assert Linked(buckets[b], c);
      ok := CutNode(buckets, b, c, seg, at);
      forall x | 0 <= x < |chains| && x != b ensures Linked(buckets[x], chains[x]) {
        OtherChain(chains, hash, b, x);
        assert old(Linked(buckets[x], chains[x]));
      }
      if ok {
        ghost var before := chains;
        chains := chains[b := c[..at] + c[at + 1..]];
        CutFiled(before, hash, b, at, key);
      }
    }

    // The oldest segment filed under `key`, if any.
    method Find(key: K) returns (r: Option<V>)
      requires Valid()
      ensures r == if All(key) == [] then None else Some(All(key)[0])
    {
      if buckets == null {
        return None;
      }
      FiledSize(chains, hash);
      ghost var c := chains[hash(key) % |chains|];
      ghost var i := 0;
      var curr := buckets[hash(key) % buckets.Length];
      while curr != null
        invariant i <= |c| && curr == (if i == |c| then null else c[i])
        invariant forall j :: 0 <= j < i ==> c[j].key != key
        decreases |c| - i
      {
        if curr.key == key {
          SelectFirst(c, i, key);
          return Some(curr.seg);
        }
        curr := curr.next;
        i := i + 1;
      }
      SelectNone(c, key);
      return None;
    }

    // All segments filed under `key`, oldest first.
    method FindAll(key: K) returns (r: seq<V>)
      requires Valid()
      ensures r == All(key)
    {
      r := [];
      if buckets == null {
        return;
      }
      FiledSize(chains, hash);
      ghost var c := chains[hash(key) % |chains|];
      ghost var i := 0;
      var curr := buckets[hash(key) % buckets.Length];
      while curr != null
        invariant i <= |c| && curr == (if i == |c| then null else c[i])
        invariant r == Select(c[..i], key)
        decreases |c| - i
      {
        SelectAppend(c[..i], curr, key);
        assert c[..i] + [curr] == c[..i + 1];
        if curr.key == key {
          r := r + [curr.seg];
        }
        curr := curr.next;
        i := i + 1;
      }
      assert c[..i] == c;
    }

    method Destroy()
      requires Valid()
      modifies this`buckets, this`chains, buckets
      ensures Valid() && buckets == null
      ensures forall k :: All(k) == []
    {
      if buckets != null {
        var h := 0;
        while h < buckets.Length
          invariant h <= buckets.Length && buckets == old(buckets)
          modifies buckets
        {
          buckets[h] := null;
          h := h + 1;
        }
        buckets := null;
        chains := [];
      }
    }
  }

  lemma Least<K, V>(c: seq<TableNode<K, V>>, seg: V, i: nat) returns (at: nat)
    requires i < |c| && c[i].seg == seg
    ensures at < |c| && c[at].seg == seg && forall j :: 0 <= j < at ==> c[j].seg != seg
  {
    at := i;
    if j :| 0 <= j < i && c[j].seg == seg {
      at := Least(c, seg, j);
    }
  }

  // Takes the first node of `seg` out of the chain `c`, which hangs off bucket `b`.
  method CutNode<K, V(==)>(buckets: array<TableNode?<K, V>>, b: nat, ghost c: seq<TableNode<K, V>>, seg: V, ghost at: nat) returns (ok: bool)
    requires b < buckets.Length && Linked(buckets[b], c) && Distinct(c)
    requires at <= |c| && (forall j :: 0 <= j < at ==> c[j].seg != seg) && if at < |c| then c[at].seg == seg else |c| != 1
    modifies buckets, (set x | x in c)`next
    ensures ok <==> at < |c|
    ensures Linked(buckets[b], if ok then c[..at] + c[at + 1..] else c)
    ensures forall x :: 0 <= x < buckets.Length && x != b ==> buckets[x] == old(buckets[x])
  {
    hide Distinct;
    var curr := buckets[b];
    if curr == null {
      return false;
    }
    ghost var cut := if at < |c| then c[..at] + c[at + 1..] else c;
    if curr.seg == seg {
      buckets[b] := curr.next;
      assert cut == c[1..];
    } else {
      ghost var i := 0;
      while curr.next.seg != seg
        invariant i < at && i + 1 < |c| && curr == c[i] && curr.next == c[i + 1]
        decreases |c| - i
      {
        curr := curr.next;
        i := i + 1;
        assert i + 1 < |c| ==> c[i].next == c[i + 1];
        if curr.next == null {
          return false;
        }
      }
      assert i + 1 == at;
      Apart(c, i);
      curr.next := curr.next.next;
      assert forall j :: 0 <= j < |cut| ==> cut[j] == c[if j < at then j else j + 1];
    }
    ok := true;
  }

  lemma Apart<T>(c: seq<T>, i: nat)
    requires Distinct(c) && i < |c|
    ensures forall j :: 0 <= j < |c| && c[j] == c[i] ==> j == i
  {}

  lemma FirstOf<K(!new), V>(chains: seq<seq<TableNode<K, V>>>, hash: K -> nat, seg: V, key: K) returns (at: nat)
    requires |chains| > 0 && seg in Filing(chains, hash, key) && forall k :: k != key ==> seg !in Filing(chains, hash, k)
    requires Filed(chains, hash)
    ensures
      var c := chains[hash(key) % |chains|];
      at < |c| && c[at].seg == seg && c[at].key == key && forall j :: 0 <= j < at ==> c[j].seg != seg
  {
    var c := chains[hash(key) % |chains|];
    SelectMembers(c, key);
    var any :| 0 <= any < |c| && c[any].seg == seg;
    at := Least(c, seg, any);
    SelectHas(c, at);
    assert seg in Filing(chains, hash, c[at].key);
  }

  // A segment filed under no key is in no chain.
  lemma NotThere<K(!new), V>(chains: seq<seq<TableNode<K, V>>>, hash: K -> nat, seg: V, b: nat)
    requires Filed(chains, hash) && b < |chains| && forall k :: seg !in Filing(chains, hash, k)
    ensures forall j :: 0 <= j < |chains[b]| ==> chains[b][j].seg != seg
  {
    var c := chains[b];
    forall j | 0 <= j < |c| ensures c[j].seg != seg {
      SelectHas(c, j);
      assert hash(c[j].key) % |chains| == b;
      assert seg !in Filing(chains, hash, c[j].key);
    }
  }

  lemma CutFiled<K(!new), V>(chains: seq<seq<TableNode<K, V>>>, hash: K -> nat, b: nat, at: nat, key: K)
    requires Filed(chains, hash) && b == hash(key) % |chains| && at < |chains[b]| && chains[b][at].key == key
    requires forall j :: 0 <= j < at ==> chains[b][j].seg != chains[b][at].seg
    ensures
      var after := chains[b := chains[b][..at] + chains[b][at + 1..]];
      && Filed(after, hash) && Nodes(after) <= Nodes(chains)
      && forall k :: Filing(after, hash, k) ==
           if k == key then Without(Filing(chains, hash, k), chains[b][at].seg) else Filing(chains, hash, k)
  {
    var c := chains[b];
    var cut := c[..at] + c[at + 1..];
    var after := chains[b := cut];
    assert forall i :: 0 <= i < |cut| ==> cut[i] == c[if i < at then i else i + 1];
    forall x | x in Nodes(after) ensures x in Nodes(chains) {
      var d, j :| 0 <= d < |after| && 0 <= j < |after[d]| && after[d][j] == x;
      assert x == if d == b then c[if j < at then j else j + 1] else chains[d][j];
    }
    forall k ensures Filing(after, hash, k) ==
      if k == key then Without(Filing(chains, hash, k), c[at].seg) else Filing(chains, hash, k)
    {
      SelectCut(c, at, k);
    }
  }

  lemma ApartInChain<K, V>(chains: seq<seq<TableNode<K, V>>>, hash: K -> nat, b: nat)
    requires Filed(chains, hash) && b < |chains|
    ensures Distinct(chains[b])
  {}

  lemma OtherChain<K, V>(chains: seq<seq<TableNode<K, V>>>, hash: K -> nat, b: nat, x: nat)
    requires Filed(chains, hash) && b < |chains| && x < |chains| && x != b
    ensures forall i, j :: 0 <= i < |chains[b]| && 0 <= j < |chains[x]| ==> chains[b][i] != chains[x][j]
  {}

  lemma AppendNodes<K, V>(chains: seq<seq<TableNode<K, V>>>, node: TableNode<K, V>, hash: K -> nat)
    requires |chains| > 0
    ensures
      var b := hash(node.key) % |chains|;
      Nodes(chains[b := chains[b] + [node]]) == Nodes(chains) + {node}
  {
    var b := hash(node.key) % |chains|;
    var after := chains[b := chains[b] + [node]];
    forall x | x in Nodes(after) ensures x in Nodes(chains) + {node} {
      var d, j :| 0 <= d < |after| && 0 <= j < |after[d]| && after[d][j] == x;
      if d != b || j < |chains[b]| {
        assert chains[d][j] == x;
      }
    }
    forall x | x in Nodes(chains) ensures x in Nodes(after) {
      var d, j :| 0 <= d < |chains| && 0 <= j < |chains[d]| && chains[d][j] == x;
      assert after[d][j] == x;
    }
    assert after[b][|chains[b]|] == node;
  }
}
