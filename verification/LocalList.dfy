/** A process's own list of tracked segments: a doubly linked list of nodes, and
    two hash tables that index it by number and by name. */
module LocalList {
  import opened Options
  import opened HashTable

  class SegmentNode {
    const num: nat
    const name: string
    var prev: SegmentNode?
    var next: SegmentNode?
    var list: SegmentList?

    constructor (num: nat, name: string)
      ensures this.num == num && this.name == name && prev == null && next == null && list == null
    {
      this.num, this.name, prev, next, list := num, name, null, null, null;
    }
  }

  ghost function NamedCount(c: seq<SegmentNode>): nat {
    if c == [] then 0 else NamedCount(c[..|c| - 1]) + (if c[|c| - 1].name != "" then 1 else 0)
  }

  ghost function Nums(c: seq<SegmentNode>): seq<nat> {
    seq(|c|, i requires 0 <= i < |c| => c[i].num)
  }

  ghost function WithNum(c: seq<SegmentNode>, n: nat): set<SegmentNode> {
    set x | x in c && x.num == n
  }

  ghost function WithName(c: seq<SegmentNode>, name: string): set<SegmentNode> {
    set x | x in c && x.name == name && name != ""
  }

  ghost function Elems<T>(c: seq<T>): set<T> {
    set x | x in c
  }

  class SegmentList {
    var first: SegmentNode?
    var last: SegmentNode?
    var numSegs: nat
    var numNamed: nat
    var segTable: Table?<nat, SegmentNode>
    var nameTable: Table?<string, SegmentNode>
    ghost var nodes: seq<SegmentNode>

    ghost function Members(): set<SegmentNode>
      reads this`nodes
    {
      set x | x in nodes
    }

    // The links lead from `first` over `nodes` to `last`, and back.
    ghost predicate Chained()
      reads this`first, this`last, this`nodes, nodes`prev, nodes`next, nodes`list
    {
      && Distinct(nodes)
      && first == (if nodes == [] then null else nodes[0])
      && last == (if nodes == [] then null else nodes[|nodes| - 1])
      && (nodes != [] ==> nodes[0].prev == null && nodes[|nodes| - 1].next == null)
      && (forall i :: 0 <= i < |nodes| - 1 ==> nodes[i].next == nodes[i + 1])
      && (forall i :: 0 <= i < |nodes| - 1 ==> nodes[i + 1].prev == nodes[i])
      && (forall i :: 0 <= i < |nodes| ==> nodes[i].list == this)
    }

    // ----- the links alone -----

    // The links of a node, by its position.
    lemma Neighbours(k: nat)
      requires Chained() && k < |nodes|
      ensures nodes[k].prev == (if k == 0 then null else nodes[k - 1])
      ensures nodes[k].next == (if k == |nodes| - 1 then null else nodes[k + 1])
      ensures nodes[k] == first <==> k == 0
      ensures nodes[k] == last <==> k == |nodes| - 1
    {
      if k > 0 {
        var i := k - 1;
        assert nodes[i + 1].prev == nodes[i];
      }
    }

    method LinkLast(node: SegmentNode)
      requires Chained() && node !in nodes && numSegs == |nodes|
      modifies this`first, this`last, this`nodes, this`numSegs
      modifies node`prev, node`next, node`list, Members()`prev, Members()`next, Members()`list
      ensures Chained() && nodes == old(nodes) + [node] && numSegs == |nodes|
    {
      node.next := null;
      node.prev := last;
      if numSegs == 0 {
        first := node;
      } else {
        last.next := node;
      }
      last := node;
      numSegs := numSegs + 1;
      node.list := this;
      nodes := nodes + [node];
    }

    method Unlink(node: SegmentNode, ghost k: nat)
      requires Chained() && k < |nodes| && nodes[k] == node && numSegs == |nodes|
      modifies this`first, this`last, this`nodes, this`numSegs, Members()`prev, Members()`next, Members()`list
      ensures Chained() && nodes == old(nodes[..k] + nodes[k + 1..]) && numSegs == |nodes|
      ensures node.prev == null && node.next == null && node.list == null
    {
      hide Distinct;
      ghost var c, cut := nodes, nodes[..k] + nodes[k + 1..];
      Neighbours(k);
      OnlyThere(c, k);
      CutDistinct(c, k);
      if node.prev != null {
        node.prev.next := node.next;
      }
      if node.next != null {
        node.next.prev := node.prev;
      }
      if first == node {
        first := node.next;
      }
      if last == node {
        last := node.prev;
      }
      numSegs := numSegs - 1;
      node.next := null;
      node.prev := null;
      node.list := null;
      nodes := cut;
      assert forall i :: 0 <= i < |cut| ==> cut[i] == c[if i < k then i else i + 1];
      forall i | 0 <= i < |cut| - 1 ensures cut[i].next == cut[i + 1] && cut[i + 1].prev == cut[i] {
        var j := if i < k then i else i + 1;
        assert old(c[j].next) == c[j + 1] && old(c[j + 1].prev) == c[j];
      }
    }

    method MoveLast(node: SegmentNode, ghost k: nat)
      requires Chained() && k < |nodes| && nodes[k] == node
      modifies this`first, this`last, this`nodes, Members()`prev, Members()`next
      ensures Chained() && nodes == old(nodes[..k] + nodes[k + 1..]) + [node]
    {
      hide Distinct;
      ghost var c, moved := nodes, nodes[..k] + nodes[k + 1..] + [node];
      Neighbours(k);
      if last == node {
        assert moved == c;
        return;
      }
      Neighbours(|nodes| - 1);
      OnlyThere(c, k);
      OnlyThere(c, |c| - 1);
      CutDistinct(c, k);
      DistinctAppend(nodes[..k] + nodes[k + 1..], node);
      if node.prev != null {
        node.prev.next := node.next;
      }
      if node.next != null {
        node.next.prev := node.prev;
      }
      if first == node {
        first := node.next;
      }
      last.next := node;
      node.prev := last;
      node.next := null;
      last := node;
      nodes := moved;
      assert forall i :: 0 <= i < |moved| - 1 ==> moved[i] == c[if i < k then i else i + 1];
      assert moved[|moved| - 1] == c[k];
      forall i | 0 <= i < |moved| - 1 ensures moved[i].next == moved[i + 1] && moved[i + 1].prev == moved[i] {
        var j := if i < k then i else i + 1;
        if j + 1 < |c| {
          assert old(c[j].next) == c[j + 1] && old(c[j + 1].prev) == c[j];
        }
      }
    }

    // ----- the links and the tables -----

    // The tables there are, and the objects they are made of.
    ghost function SegTables(): set<Table<nat, SegmentNode>>
      reads this`segTable
    {
      if segTable == null then {} else {segTable}
    }

    ghost function NameTables(): set<Table<string, SegmentNode>>
      reads this`nameTable
    {
      if nameTable == null then {} else {nameTable}
    }

    ghost function SegNodes(): set<TableNode<nat, SegmentNode>>
      reads this`segTable, SegTables()`chains
    {
      if segTable == null then {} else Nodes(segTable.chains)
    }

    ghost function NameNodes(): set<TableNode<string, SegmentNode>>
      reads this`nameTable, NameTables()`chains
    {
      if nameTable == null then {} else Nodes(nameTable.chains)
    }

    ghost function SegBuckets(): array?<TableNode?<nat, SegmentNode>>
      reads this`segTable, SegTables()`buckets
    {
      if segTable == null then null else segTable.buckets
    }

    ghost function NameBuckets(): array?<TableNode?<string, SegmentNode>>
      reads this`nameTable, NameTables()`buckets
    {
      if nameTable == null then null else nameTable.buckets
    }

    // What the tables are made of is what they were made of, and new objects.
    twostate predicate Grown(segBuckets: array?<TableNode?<nat, SegmentNode>>, segNodes: set<TableNode<nat, SegmentNode>>,
                             nameBuckets: array?<TableNode?<string, SegmentNode>>, nameNodes: set<TableNode<string, SegmentNode>>)
      reads this`segTable, this`nameTable, SegTables()`buckets, SegTables()`chains, NameTables()`buckets, NameTables()`chains
    {
      && (SegBuckets() == segBuckets || (SegBuckets() != null && fresh(SegBuckets())))
      && (NameBuckets() == nameBuckets || (NameBuckets() != null && fresh(NameBuckets())))
      && fresh(SegNodes() - segNodes) && fresh(NameNodes() - nameNodes)
    }

    // The tables are sound and share nothing.
    ghost predicate TablesOk()
      reads this`segTable, this`nameTable, SegTables()`buckets, SegTables()`chains, NameTables()`buckets, NameTables()`chains
      reads SegBuckets(), NameBuckets(), SegNodes()`next, NameNodes()`next
    {
      && (segTable != null ==> segTable.Valid() && segTable.buckets != null)
      && (nameTable != null ==> nameTable.Valid() && nameTable.buckets != null)
      && (segTable != null && nameTable != null ==> segTable.Repr() !! nameTable.Repr())
    }

    // Each table holds exactly the nodes of `c` (that have a name), each once.
    ghost predicate SegsFiled(c: seq<SegmentNode>)
      reads this`segTable, SegTables()`chains
    {
      segTable != null ==> forall n :: Elems(segTable.All(n)) == WithNum(c, n) && Distinct(segTable.All(n))
    }

    ghost predicate NamesFiled(c: seq<SegmentNode>)
      reads this`nameTable, NameTables()`chains
    {
      nameTable != null ==> forall k :: Elems(nameTable.All(k)) == WithName(c, k) && Distinct(nameTable.All(k))
    }

    // The links are inverse, the counts exact, and each table holds exactly the
    // listed (named) nodes, each once.
    ghost predicate Valid()
      reads this, nodes`prev, nodes`next, nodes`list
      reads SegTables()`buckets, SegTables()`chains, NameTables()`buckets, NameTables()`chains
      reads SegBuckets(), NameBuckets(), SegNodes()`next, NameNodes()`next
    {
      && Chained() && numSegs == |nodes| && numSegs < MAX_SIZE
      && TablesOk() && SegsFiled(nodes) && NamesFiled(nodes)
      && numNamed == (if nameTable == null then 0 else NamedCount(nodes))
    }

    // All objects the list is made of.
    ghost function Repr(): set<object>
      reads this`nodes, this`segTable, this`nameTable, SegTables()`buckets, SegTables()`chains, NameTables()`buckets, NameTables()`chains
    {
      {this} + Members() + SegTables() + NameTables() + SegNodes() + NameNodes()
      + (if SegBuckets() == null then {} else {SegBuckets()}) + (if NameBuckets() == null then {} else {NameBuckets()})
    }

    // Files a linked node under its number.
    method FileSeg(node: SegmentNode)
      requires TablesOk() && segTable != null && numSegs < MAX_SIZE
      requires |nodes| > 0 && nodes[|nodes| - 1] == node && node !in nodes[..|nodes| - 1] && SegsFiled(nodes[..|nodes| - 1])
      modifies segTable`buckets, segTable`chains, segTable.buckets, Nodes(segTable.chains)`next
      ensures TablesOk() && SegsFiled(nodes) && Grown(old(SegBuckets()), old(SegNodes()), old(NameBuckets()), old(NameNodes()))
    {
      hide Table.Valid, Table.All, Elems, WithNum, WithName, Distinct;
      ghost var t := segTable;
      segTable.Add(node, node.num, numSegs);
      forall n ensures Elems(t.All(n)) == WithNum(nodes, n) && Distinct(t.All(n)) {
        FiledMore(old(t.All(n)), nodes, n);
      }
    }

    // Files a linked node under its name.
    method FileName(node: SegmentNode)
      requires TablesOk() && nameTable != null && numSegs < MAX_SIZE && node.name != ""
      requires |nodes| > 0 && nodes[|nodes| - 1] == node && node !in nodes[..|nodes| - 1] && NamesFiled(nodes[..|nodes| - 1])
      modifies nameTable`buckets, nameTable`chains, nameTable.buckets, Nodes(nameTable.chains)`next
      ensures TablesOk() && NamesFiled(nodes) && Grown(old(SegBuckets()), old(SegNodes()), old(NameBuckets()), old(NameNodes()))
    {
      hide Table.Valid, Table.All, Elems, WithNum, WithName, Distinct;
      ghost var t := nameTable;
      nameTable.Add(node, node.name, numSegs);
      forall k ensures Elems(t.All(k)) == WithName(nodes, k) && Distinct(t.All(k)) {
        NamedMore(old(t.All(k)), nodes, k);
      }
    }

    // Files a linked node by name, if it has one.
    method FileNamed(node: SegmentNode)
      requires TablesOk() && nameTable != null && numSegs < MAX_SIZE
      requires |nodes| > 0 && nodes[|nodes| - 1] == node && node !in nodes[..|nodes| - 1] && NamesFiled(nodes[..|nodes| - 1])
      requires numNamed == NamedCount(nodes[..|nodes| - 1])
      modifies this`numNamed, nameTable`buckets, nameTable`chains, nameTable.buckets, Nodes(nameTable.chains)`next
      ensures TablesOk() && NamesFiled(nodes) && Grown(old(SegBuckets()), old(SegNodes()), old(NameBuckets()), old(NameNodes()))
      ensures numNamed == NamedCount(nodes)
    {
      hide Table.Valid, Table.All, Elems, WithName, Distinct;
      if node.name != "" {
        FileName(node);
        numNamed := numNamed + 1;
      } else {
        NotNamed(nodes);
      }
    }

    // Files a linked node in whichever tables there are.
    method FileNode(node: SegmentNode)
      requires TablesOk() && numSegs < MAX_SIZE && |nodes| > 0 && nodes[|nodes| - 1] == node && node !in nodes[..|nodes| - 1]
      requires SegsFiled(nodes[..|nodes| - 1]) && NamesFiled(nodes[..|nodes| - 1])
      requires numNamed == (if nameTable == null then 0 else NamedCount(nodes[..|nodes| - 1]))
      modifies this`numNamed
      modifies SegTables()`buckets, SegTables()`chains, NameTables()`buckets, NameTables()`chains
      modifies SegBuckets(), NameBuckets(), SegNodes()`next, NameNodes()`next
      ensures TablesOk() && SegsFiled(nodes) && NamesFiled(nodes)
      ensures numNamed == (if nameTable == null then 0 else NamedCount(nodes))
      ensures Grown(old(SegBuckets()), old(SegNodes()), old(NameBuckets()), old(NameNodes()))
    {
      hide Table.Valid, Table.All, Elems, WithNum, WithName, Distinct, SegsFiled, NamedCount;
      if segTable != null {
        FileSeg(node);
      } else {
        NoSegTable();
      }
      if nameTable != null {
        FileNamed(node);
      }
    }

    lemma NoSegTable()
      requires segTable == null
      ensures forall c :: SegsFiled(c)
    {}

    // Appends a node and files it in the tables.
    method Add(node: SegmentNode)
      requires Valid() && node !in nodes && numSegs + 1 < MAX_SIZE
      modifies Repr(), node
      ensures Valid() && nodes == old(nodes) + [node] && segTable == old(segTable)
      ensures forall o :: o in Repr() ==> o in old(Repr()) || o == node || fresh(o)
    {
      hide Valid, Nodes;
      AddIn(node);
      assert Members() == old(Members()) + {node};
    }

    // Files the last node of the list.
    method FileLast(node: SegmentNode)
      requires Chained() && TablesOk() && numSegs == |nodes| && numSegs < MAX_SIZE && nodes != [] && nodes[|nodes| - 1] == node
      requires SegsFiled(nodes[..|nodes| - 1]) && NamesFiled(nodes[..|nodes| - 1])
      requires numNamed == (if nameTable == null then 0 else NamedCount(nodes[..|nodes| - 1]))
      modifies this`numNamed
      modifies SegTables()`buckets, SegTables()`chains, NameTables()`buckets, NameTables()`chains
      modifies SegBuckets(), NameBuckets(), SegNodes()`next, NameNodes()`next
      ensures Valid() && Grown(old(SegBuckets()), old(SegNodes()), old(NameBuckets()), old(NameNodes()))
    {
      hide Table.Valid, Table.All, NamedCount, Elems, WithNum, WithName, Chained, SegsFiled, NamesFiled, TablesOk, Grown;
      LastOnce(node);
      ghost var a: object?, b: object? := SegBuckets(), NameBuckets();
      ghost var me: object := this;
      assert me != a && me != b && forall x :: x in Members() ==> x != a && x != b;
      FileNode(node);
    }

    lemma LastOnce(node: SegmentNode)
      requires Chained() && nodes != [] && nodes[|nodes| - 1] == node
      ensures node !in nodes[..|nodes| - 1]
    {}

    method AddIn(node: SegmentNode)
      requires Valid() && node !in nodes && numSegs + 1 < MAX_SIZE
      modifies this`first, this`last, this`nodes, this`numSegs, this`numNamed
      modifies node`prev, node`next, node`list, Members()`prev, Members()`next, Members()`list
      modifies SegTables()`buckets, SegTables()`chains, NameTables()`buckets, NameTables()`chains
      modifies SegBuckets(), NameBuckets(), SegNodes()`next, NameNodes()`next
      ensures Valid() && nodes == old(nodes) + [node]
      ensures Grown(old(SegBuckets()), old(SegNodes()), old(NameBuckets()), old(NameNodes()))
    {
      hide Table.Valid, Table.All, NamedCount, Elems, WithNum, WithName, Distinct, Chained, SegsFiled, NamesFiled;
      LinkLast(node);
      assert nodes[..|nodes| - 1] == old(nodes);
      FileLast(node);
    }

    // ----- taking out -----

    lemma FiledThere(k: nat)
      requires Valid() && k < |nodes|
      ensures segTable != null ==>
        nodes[k] in segTable.All(nodes[k].num) && forall n :: n != nodes[k].num ==> nodes[k] !in segTable.All(n)
      ensures nameTable != null && nodes[k].name != "" ==>
        nodes[k] in nameTable.All(nodes[k].name) && forall m :: m != nodes[k].name ==> nodes[k] !in nameTable.All(m)
    {
      hide Table.Valid, Table.All, Chained, TablesOk, NamedCount, Distinct;
      var x := nodes[k];
      if segTable != null {
        assert x in WithNum(nodes, x.num);
        assert x in Elems(segTable.All(x.num));
        forall n | n != x.num ensures x !in segTable.All(n) {
          assert x !in WithNum(nodes, n);
          assert x !in Elems(segTable.All(n));
        }
      }
      if nameTable != null && x.name != "" {
        assert x in WithName(nodes, x.name);
        assert x in Elems(nameTable.All(x.name));
        forall m | m != x.name ensures x !in nameTable.All(m) {
          assert x !in WithName(nodes, m);
          assert x !in Elems(nameTable.All(m));
        }
      }
    }

    method UnfileSeg(node: SegmentNode, ghost k: nat)
      requires TablesOk() && segTable != null && k < |nodes| && nodes[k] == node && Distinct(nodes) && SegsFiled(nodes)
      requires node in segTable.All(node.num) && forall n :: n != node.num ==> node !in segTable.All(n)
      modifies segTable`chains, segTable.buckets, Nodes(segTable.chains)`next
      ensures TablesOk() && SegsFiled(nodes[..k] + nodes[k + 1..]) && SegNodes() <= old(SegNodes())
    {
      hide Table.Valid, Table.All, Elems, WithNum, WithName, Distinct, Without;
      ghost var t := segTable;
      var ok := segTable.Remove(node, node.num);
      forall n ensures Elems(t.All(n)) == WithNum(nodes[..k] + nodes[k + 1..], n) && Distinct(t.All(n)) {
        FiledLess(old(t.All(n)), nodes, k, n);
      }
    }

    method UnfileName(node: SegmentNode, ghost k: nat)
      requires TablesOk() && nameTable != null && k < |nodes| && nodes[k] == node && Distinct(nodes) && NamesFiled(nodes)
      requires node in nameTable.All(node.name) && (forall n :: n != node.name ==> node !in nameTable.All(n)) && node.name != ""
      modifies nameTable`chains, nameTable.buckets, Nodes(nameTable.chains)`next
      ensures TablesOk() && NamesFiled(nodes[..k] + nodes[k + 1..]) && NameNodes() <= old(NameNodes())
    {
      hide Table.Valid, Table.All, Elems, WithNum, WithName, Distinct, Without;
      ghost var t := nameTable;
      var ok := nameTable.Remove(node, node.name);
      forall n ensures Elems(t.All(n)) == WithName(nodes[..k] + nodes[k + 1..], n) && Distinct(t.All(n)) {
        NamedLess(old(t.All(n)), nodes, k, n);
      }
    }

    // Takes a node out of whichever tables there are.
    method UnfileNode(node: SegmentNode, ghost k: nat)
      requires Valid() && k < |nodes| && nodes[k] == node
      modifies this`numNamed, SegTables()`chains, NameTables()`chains
      modifies SegBuckets(), NameBuckets(), SegNodes()`next, NameNodes()`next
      ensures TablesOk() && SegsFiled(nodes[..k] + nodes[k + 1..]) && NamesFiled(nodes[..k] + nodes[k + 1..])
      ensures numNamed == (if nameTable == null then 0 else NamedCount(nodes[..k] + nodes[k + 1..]))
      ensures SegNodes() <= old(SegNodes()) && NameNodes() <= old(NameNodes())
    {
      hide Table.Valid, Table.All, Elems, WithNum, WithName, SegsFiled, NamesFiled, NamedCount, Distinct;
      FiledThere(k);
      NamedCountCut(nodes, k);
      if nameTable != null && node.name != "" {
        UnfileName(node, k);
        numNamed := numNamed - 1;
      } else {
        StillNamed(k);
      }
      if segTable != null {
        UnfileSeg(node, k);
      } else {
        NoSegTable();
      }
    }

    lemma StillNamed(k: nat)
      requires k < |nodes| && NamesFiled(nodes) && Distinct(nodes) && (nameTable == null || nodes[k].name == "")
      ensures NamesFiled(nodes[..k] + nodes[k + 1..])
    {
      CutMembers(nodes, k);
      forall m ensures WithName(nodes[..k] + nodes[k + 1..], m) == WithName(nodes, m) || nameTable == null {
      }
    }

    // Takes a node out of the list and the tables.
    method Remove(node: SegmentNode)
      requires Valid() && node in nodes
      modifies Repr()
      ensures Valid() && nodes == Without(old(nodes), node) && segTable == old(segTable)
      ensures forall o :: o in Repr() ==> o in old(Repr())
      ensures node.prev == null && node.next == null && node.list == null
    {
      hide Valid, Without;
      ghost var c := nodes;
      Ends();
      RemoveIn(node);
      WithoutOnce(c, node);
      assert Members() <= old(Members());
    }

    method RemoveIn(node: SegmentNode)
      requires Valid() && node in nodes
      modifies this`first, this`last, this`nodes, this`numSegs, this`numNamed
      modifies Members()`prev, Members()`next, Members()`list
      modifies SegTables()`chains, NameTables()`chains
      modifies SegBuckets(), NameBuckets(), SegNodes()`next, NameNodes()`next
      ensures Valid() && nodes == Without(old(nodes), node)
      ensures node.prev == null && node.next == null && node.list == null
      ensures SegNodes() <= old(SegNodes()) && NameNodes() <= old(NameNodes())
    {
      hide Table.Valid, Table.All, NamedCount, Elems, WithNum, WithName, Distinct, Chained, SegsFiled, NamesFiled, Without;
      ghost var k :| 0 <= k < |nodes| && nodes[k] == node;
      ghost var a: object?, b: object? := SegBuckets(), NameBuckets();
      ghost var me: object := this;
      assert me != a && me != b && forall x :: x in Members() ==> x != a && x != b;
      ChainedDistinct();
      WithoutIsCut(nodes, k);
      UnfileNode(node, k);
      assert a == SegBuckets() && b == NameBuckets();
      label Unfiled:
      Unlink(node, k);
      assert forall x :: x in old@Unfiled(nodes) ==> x != a && x != b;
      TablesStay@Unfiled();
    }

    // Changing links of the list leaves the tables sound.
    twostate lemma TablesStay()
      requires old(TablesOk()) && segTable == old(segTable) && nameTable == old(nameTable)
      requires segTable != null ==>
        unchanged(segTable`buckets) && unchanged(segTable`chains) && unchanged(segTable.buckets)
        && forall x :: x in Nodes(segTable.chains) ==> unchanged(x`next)
      requires nameTable != null ==>
        unchanged(nameTable`buckets) && unchanged(nameTable`chains) && unchanged(nameTable.buckets)
        && forall x :: x in Nodes(nameTable.chains) ==> unchanged(x`next)
      ensures TablesOk()
    {}

    twostate lemma ChainStays()
      requires old(Chained()) && unchanged(`nodes) && unchanged(`first) && unchanged(`last)
      requires forall i :: 0 <= i < |nodes| ==> unchanged(nodes[i])
      ensures Chained()
    {}

    lemma ChainedDistinct()
      requires Chained()
      ensures Distinct(nodes)
    {}

    // Moves a node to the end; the tables stay as they are.
    method PlaceAtEnd(node: SegmentNode)
      requires Valid() && node in nodes
      modifies this`first, this`last, this`nodes, Members()`prev, Members()`next
      ensures Valid() && nodes == Without(old(nodes), node) + [node] && Repr() == old(Repr())
    {
      hide Table.Valid, Table.All, NamedCount, Elems, WithNum, WithName, Distinct, Chained, Without;
      ghost var k, c :| 0 <= k < |nodes| && nodes[k] == node && c == nodes;
      ChainedDistinct();
      WithoutIsCut(nodes, k);
      ghost var a: object?, b: object? := SegBuckets(), NameBuckets();
      ghost var me: object := this;
      assert me != a && me != b && forall x :: x in Members() ==> x != a && x != b;
      MoveLast(node, k);
      MovedSame(c, k);
      assert forall x :: x in c ==> x != a && x != b;
      CutMembers(c, k);
      assert Members() == old(Members());
      TablesStay();
    }

    // ----- walks over the list -----

    lemma NextAt(k: nat)
      requires Valid() && k < |nodes|
      ensures nodes[k].next == (if k == |nodes| - 1 then null else nodes[k + 1])
    {
      Neighbours(k);
    }

    lemma Ends()
      requires Valid()
      ensures Distinct(nodes) && first == (if nodes == [] then null else nodes[0]) && last == (if nodes == [] then null else nodes[|nodes| - 1])
    {}

    // The node after `curr`, which is taken out if it is to go.
    method CleanOne(curr: SegmentNode, go: bool, ghost c: seq<SegmentNode>, ghost j: nat, ghost kept: seq<SegmentNode>)
      returns (next: SegmentNode?)
      requires Valid() && j < |c| && curr == c[j] && nodes == kept + c[j..]
      modifies Repr()
      ensures Valid() && forall o :: o in Repr() ==> o in old(Repr())
      ensures next == (if j + 1 == |c| then null else c[j + 1])
      ensures nodes == (if go then kept + c[j + 1..] else (kept + [curr]) + c[j + 1..])
    {
      hide Valid, Distinct, Without, Repr;
      Ends();
      KeepRest(kept, c, j);
      NextAt(|kept|);
      next := curr.next;
      if go {
        Remove(curr);
      }
    }

    // One node of the walk.
    method CleanNext(curr: SegmentNode, ghost c: seq<SegmentNode>, ghost j: nat, before: seq<SegmentNode>, invalid: set<nat>)
      returns (next: SegmentNode?, removed: seq<SegmentNode>)
      requires Valid() && j < |c| && curr == c[j] && Cleaned(c, j, nodes, before, invalid)
      modifies Repr()
      ensures Valid() && forall o :: o in Repr() ==> o in old(Repr())
      ensures next == (if j + 1 == |c| then null else c[j + 1]) && Cleaned(c, j + 1, nodes, removed, invalid)
    {
      hide Valid, Keep, Distinct, Without, Repr, Cleaned;
      CleanedNext(c, j, nodes, before, invalid);
      next := CleanOne(curr, curr.num in invalid, c, j, Keep(c[..j], invalid, false));
      removed := if curr.num in invalid then before + [curr] else before;
    }

    // Takes out every node whose segment is marked invalid, from the front.
    // `invalid` holds the numbers of those segments.
    method Clean(invalid: set<nat>) returns (removed: seq<SegmentNode>)
      requires Valid()
      modifies Repr()
      ensures Valid() && nodes == Keep(old(nodes), invalid, false) && removed == Keep(old(nodes), invalid, true)
    {
      hide Valid, Keep, Distinct, Without, Repr, Cleaned;
      ghost var c, j := nodes, 0;
      Ends();
      CleanedNone(c, invalid);
      removed := [];
      var curr := first;
      while curr != null
        invariant forall o :: o in Repr() ==> o in old(Repr())
        invariant Valid() && j <= |c| && curr == (if j == |c| then null else c[j]) && Cleaned(c, j, nodes, removed, invalid)
        decreases |c| - j
      {
        curr, removed := CleanNext(curr, c, j, removed, invalid);
        j := j + 1;
      }
      CleanedAll(c, nodes, removed, invalid);
    }

    // ----- following the shared list -----

    // The node of a number, if tracked.
    method FindNode(n: nat) returns (r: SegmentNode?)
      requires Valid() && segTable != null
      ensures Valid() && Repr() == old(Repr())
      ensures if r == null then n !in Nums(nodes) else r in nodes && r.num == n
    {
      hide Table.Valid, Table.All, Chained, NamedCount, Distinct;
      var found := segTable.Find(n);
      TablesStay();
      ChainStays();
      assert WithNum(nodes, n) == Elems(segTable.All(n));
      if found == None {
        r := null;
        NoneNumbered(nodes, n);
      } else {
        r := found.value;
        assert r in Elems(segTable.All(n));
        assert r in WithNum(nodes, n);
      }
    }

    // A node of its own for the segment just opened.
    method Open(n: nat, name: string) returns (node: SegmentNode)
      requires Valid()
      ensures Valid() && Repr() == old(Repr()) && fresh(node) && node.num == n && node !in nodes
    {
      hide Table.Valid, Table.All, NamedCount, Elems, WithNum, WithName, Distinct, Chained;
      node := new SegmentNode(n, name);
      TablesStay();
      ChainStays();
    }

    // The segment of number `n` becomes the last one, opened if not yet tracked.
    method Follow(n: nat, name: string) returns (node: SegmentNode)
      requires Valid() && segTable != null && numSegs + 1 < MAX_SIZE
      modifies Repr()
      ensures Valid() && segTable == old(segTable)
      ensures forall o :: o in Repr() ==> o in old(Repr()) || fresh(o)
      ensures node.num == n && Followed(old(nodes), nodes, node)
    {
      hide Valid, Repr, Distinct, Without;
      var found := FindNode(n);
      if found == null {
        node := Open(n, name);
        Add(node);
      } else {
        node := found;
        PlaceIn(node);
      }
    }

    method PlaceIn(node: SegmentNode)
      requires Valid() && node in nodes
      modifies Repr()
      ensures Valid() && nodes == Without(old(nodes), node) + [node] && Repr() == old(Repr()) && segTable == old(segTable)
    {
      hide Valid, Without;
      PlaceAtEnd(node);
    }

    // Brings the list in line with the shared one, whose numbers a walk under
    // the lock visits: each shared segment in turn becomes the last node, and
    // whatever is then in front of the first of them is dropped.
    method UpdateAll(shared: seq<nat>, nameOf: nat -> string) returns (dropped: seq<SegmentNode>)
      requires Valid() && segTable != null && numSegs + |shared| + 1 < MAX_SIZE
      requires Distinct(shared) && Distinct(Nums(nodes))
      modifies Repr()
      ensures Valid() && Nums(nodes) == shared
      ensures dropped == Rest(old(nodes), shared)
    {
      hide Valid, Repr, Distinct, Without, Rest;
      ghost var c := nodes;
      var front: SegmentNode? := null;
      var i := 0;
      ghost var placed: seq<SegmentNode> := [];
      RestNone(c);
      while i < |shared|
        invariant Valid() && segTable != null && i <= |shared| == i + (|shared| - i) && numSegs + (|shared| - i) + 1 < MAX_SIZE
        invariant forall o :: o in Repr() ==> o in old(Repr()) || fresh(o)
        invariant nodes == Rest(c, shared[..i]) + placed && Nums(placed) == shared[..i] && |placed| == i
        invariant front == (if i == 0 then null else placed[0])
      {
        ghost var rest := Rest(c, shared[..i]);
        Counted();
        var node := Follow(shared[i], nameOf(shared[i]));
        FollowSplit(c, shared, i, placed, nodes, node);
        Counted();
        placed := placed + [node];
        if front == null {
          front := node;
        }
        i := i + 1;
      }
      assert shared[..i] == shared;
      dropped := DropUntil(front, Rest(c, shared), placed);
    }

    lemma Counted()
      requires Valid()
      ensures numSegs == |nodes|
    {}

    // Drops the nodes in front of `front`.
    method DropUntil(front: SegmentNode?, ghost rest: seq<SegmentNode>, ghost placed: seq<SegmentNode>) returns (dropped: seq<SegmentNode>)
      requires Valid() && nodes == rest + placed && front == (if placed == [] then null else placed[0])
      modifies Repr()
      ensures Valid() && nodes == placed && dropped == rest
    {
      hide Valid, Repr, Distinct, Without;
      Ends();
      dropped := [];
      var curr := first;
      ghost var j := 0;
      while curr != front
        invariant forall o :: o in Repr() ==> o in old(Repr())
        invariant Valid() && j <= |rest| && nodes == rest[j..] + placed && dropped == rest[..j]
        invariant curr == (if nodes == [] then null else nodes[0])
        decreases |rest| - j
      {
        Ends();
        NextAt(0);
        var next := curr.next;
        DropFirst(nodes);
        assert j < |rest|;
        Remove(curr);
        dropped := dropped + [curr];
        curr := next;
        j := j + 1;
        Ends();
      }
      Ends();
      if j < |rest| && placed != [] {
        FrontOnly(rest[j..], placed);
      }
      assert rest[j..] == [];
    }

    // What an update of the latest takes for the last shared segment: the number read
    // first, if it is tracked; else the one read under the lock, if the number read
    // again before that was one.
    static function Latest(tracked: bool, peeked: Option<nat>, again: Option<nat>, locked: Option<nat>): Option<nat> {
      if tracked then peeked else if again == None then None else locked
    }

    // The last shared segment, if there is one, becomes the last tracked one.  Its
    // number is read twice without the lock and once with it.
    method UpdateLatest(peeked: Option<nat>, again: Option<nat>, locked: Option<nat>, name: string)
      requires Valid() && segTable != null && numSegs + 1 < MAX_SIZE
      modifies Repr()
      ensures Valid()
      ensures
        var taken := Latest(peeked.Some? && peeked.value in old(Nums(nodes)), peeked, again, locked);
        if taken == None then nodes == old(nodes)
        else nodes != [] && nodes[|nodes| - 1].num == taken.value && Followed(old(nodes), nodes, nodes[|nodes| - 1])
    {
      hide Valid, Repr, Distinct, Without, Nums;
      var found: SegmentNode? := null;
      if peeked.Some? {
        found := FindNode(peeked.value);
      }
      if found != null {
        HasNum(nodes, found);
        PlaceIn(found);
      } else if again.Some? && locked.Some? {
        var node := Follow(locked.value, name);
      }
    }

    // Tracks the segment of number `n` if it is not tracked yet.
    method Ensure(n: nat, name: string)
      requires Valid() && segTable != null && numSegs + 1 < MAX_SIZE && Distinct(Nums(nodes))
      modifies Repr()
      ensures Valid() && segTable == old(segTable) && Distinct(Nums(nodes)) && old(numSegs) <= numSegs <= old(numSegs) + 1
      ensures forall o :: o in Repr() ==> o in old(Repr()) || fresh(o)
      ensures forall m :: m in Nums(nodes) <==> m in old(Nums(nodes)) || m == n
    {
      hide Valid, Repr, Distinct, Without, Nums;
      Counted();
      var found := FindNode(n);
      if found == null {
        var node := Open(n, name);
        NumsAppend(nodes, node);
        Add(node);
        Counted();
      } else {
        HasNum(nodes, found);
      }
    }

    // Takes the first segment out of the list.
    method RemoveFirst()
      requires Valid() && segTable != null && nodes != [] && Distinct(Nums(nodes))
      modifies Repr()
      ensures Valid() && segTable == old(segTable) && Distinct(Nums(nodes)) && numSegs == old(numSegs) - 1
      ensures forall o :: o in Repr() ==> o in old(Repr())
      ensures forall m :: m in old(Nums(nodes)) && m != old(nodes)[0].num ==> m in Nums(nodes)
    {
      hide Valid, Repr, Distinct, Without, Nums;
      Ends();
      Counted();
      NumsRest(nodes);
      DropFirst(nodes);
      Remove(first);
      Counted();
    }

    // Tracks the neighbours of position `k` of the shared list.
    method EnsureNeighbours(shared: seq<nat>, k: nat, nameOf: nat -> string)
      requires Valid() && segTable != null && Distinct(Nums(nodes)) && k < |shared| && numSegs + 2 < MAX_SIZE
      modifies Repr()
      ensures Valid() && segTable == old(segTable) && Distinct(Nums(nodes)) && numSegs <= old(numSegs) + 2
      ensures forall o :: o in Repr() ==> o in old(Repr()) || fresh(o)
      ensures forall m :: m in old(Nums(nodes)) ==> m in Nums(nodes)
    {
      hide Valid, Repr, Distinct, Without, Nums;
      if k > 0 {
        Ensure(shared[k - 1], nameOf(shared[k - 1]));
      }
      if k + 1 < |shared| {
        Ensure(shared[k + 1], nameOf(shared[k + 1]));
      }
    }

    // Detaches the first segment.  If no other process counts in it, it is cut
    // out of the shared list, whose neighbours are tracked for that.
    method DetachFirst(shared: seq<nat>, others: set<nat>, nameOf: nat -> string) returns (left: seq<nat>)
      requires Valid() && segTable != null && nodes != [] && Distinct(Nums(nodes)) && Distinct(shared)
      requires numSegs + 2 * |shared| < MAX_SIZE
      modifies Repr()
      ensures Valid() && segTable == old(segTable) && Distinct(Nums(nodes))
      ensures forall o :: o in Repr() ==> o in old(Repr()) || fresh(o)
      ensures
        var n := old(nodes)[0].num;
        if n in others || n !in shared then left == shared && numSegs == old(numSegs) - 1
        else left == Without(shared, n) && numSegs <= old(numSegs) + 1
      ensures forall m :: m in old(Nums(nodes)) && m != old(nodes)[0].num ==> m in Nums(nodes)
    {
      hide Valid, Repr, Distinct, Without, Nums;
      Ends();
      var node := first;
      RemoveFirst();
      left := shared;
      if node.num !in others && node.num in shared {
        var k :| 0 <= k < |shared| && shared[k] == node.num;
        EnsureNeighbours(shared, k, nameOf);
        CutIsWithout(shared, k);
        left := shared[..k] + shared[k + 1..];
      }
    }

    // The shared numbers that are still there after other processes have left some
    // segments and removed some from the list.
    method Drift(shared: seq<nat>, others: set<nat>, gone: set<nat>) returns (left: seq<nat>)
      requires Valid() && segTable != null
      ensures Valid() && Repr() == old(Repr())
      ensures left == Only(shared, Elems(Nums(nodes)) + others - gone)
    {
      hide Valid, Repr, Distinct, Without, Nums, Only;
      left := [];
      var i := 0;
      ghost var keep := Elems(Nums(nodes)) + others - gone;
      assert shared[..0] == [];
      OnlyNone(keep);
      while i < |shared|
        invariant i <= |shared| && Valid() && Repr() == old(Repr()) && left == Only(shared[..i], keep)
      {
        var found := FindNode(shared[i]);
        if found != null {
          HasNum(nodes, found);
        }
        OnlyNext(shared[..i], shared[i], keep);
        assert shared[..i] + [shared[i]] == shared[..i + 1];
        if (found != null || shared[i] in others) && shared[i] !in gone {
          left := left + [shared[i]];
        }
        i := i + 1;
      }
      assert shared[..i] == shared;
    }

    // Detaches everything, while other processes leave segments and remove some from
    // the shared list: before round `i`, they have left `leave(i)` and removed
    // `unshare(i)`, and what nobody counts in any more is not shared.  Cutting a segment
    // out may track its neighbours, but shortens the shared list; nothing else
    // lengthens this list.  What remains shared is what other processes count in.
    method DetachAll(shared: seq<nat>, others: set<nat>, leave: nat -> set<nat>, unshare: nat -> set<nat>, nameOf: nat -> string)
      returns (left: seq<nat>, ghost rounds: nat)
      requires Valid() && segTable != null && Distinct(Nums(nodes)) && Distinct(shared)
      requires numSegs + 2 * |shared| < MAX_SIZE
      requires forall n :: n in shared ==> n in Nums(nodes) || n in others
      modifies Repr()
      ensures Valid() && nodes == []
      ensures left == Only(shared, others - Upto(leave, rounds) - Upto(unshare, rounds))
    {
      hide Valid, Repr, Distinct, Without, Nums, Only;
      left := shared;
      var others', gone := others, {};
      var i := 0;
      Ends();
      Counted();
      while first != null
        invariant Valid() && segTable != null && Distinct(Nums(nodes)) && Distinct(left)
        invariant forall o :: o in Repr() ==> o in old(Repr()) || fresh(o)
        invariant numSegs == |nodes| && numSegs + 2 * |left| < MAX_SIZE
        invariant first == (if nodes == [] then null else nodes[0])
        invariant others' == others - Upto(leave, i) && gone == Upto(unshare, i)
        invariant Only(left, others' - gone) == Only(shared, others' - gone)
        invariant forall n :: n in left ==> (n in Nums(nodes) || n in others') && n !in gone
        decreases |left|, |nodes|
      {
        ghost var was, still := left, others' - gone;
        others', gone := others' - leave(i), gone + unshare(i);
        left := Drift(left, others', gone);
        Drifted(shared, was, left, still, Elems(Nums(nodes)) + others' - gone, others' - gone);
        i := i + 1;
        ghost var c, n, before := nodes, nodes[0].num, left;
        Reduced(left, others' - gone, n);
        left := DetachFirst(left, others', nameOf);
        Ends();
        Counted();
      }
      NoNums();
      OnlyAll(left, others' - gone);
      rounds := i;
    }
  }

  lemma NoNums()
    ensures Nums([]) == []
  {}

  // The members of `c` that are in `keep`, in order.
  ghost function Only(c: seq<nat>, keep: set<nat>): seq<nat> {
    if c == [] then [] else (if c[0] in keep then [c[0]] else []) + Only(c[1..], keep)
  }

  // What has been taken out before round `i`.
  function Upto(f: nat -> set<nat>, i: nat): set<nat> {
    if i == 0 then {} else Upto(f, i - 1) + f(i - 1)
  }

  lemma OnlyNone(keep: set<nat>)
    ensures Only([], keep) == []
  {}

  lemma {:induction false} OnlyNext(c: seq<nat>, x: nat, keep: set<nat>)
    ensures Only(c + [x], keep) == Only(c, keep) + (if x in keep then [x] else [])
  {
    if c == [] {
      assert c + [x] == [x] && [x][1..] == [];
    } else {
      assert (c + [x])[1..] == c[1..] + [x];
      OnlyNext(c[1..], x, keep);
    }
  }

  // Keeping some, then fewer of them, is keeping the fewer at once.
  lemma {:induction false} OnlyTwice(c: seq<nat>, keep: set<nat>, fewer: set<nat>)
    requires forall n :: n in c && n in fewer ==> n in keep
    ensures Only(Only(c, keep), fewer) == Only(c, fewer)
  {
    if c != [] {
      OnlyTwice(c[1..], keep, fewer);
      assert forall n :: n in c[1..] ==> n in c;
      var rest := Only(c[1..], keep);
      if c[0] in keep {
        assert ([c[0]] + rest)[1..] == rest;
        assert Only([c[0]] + rest, fewer) == (if c[0] in fewer then [c[0]] else []) + Only(rest, fewer);
      } else {
        assert Only(c, keep) == rest && c[0] in c;
      }
    }
  }

  lemma {:induction false} OnlyParts(c: seq<nat>, keep: set<nat>)
    requires Distinct(c)
    ensures |Only(c, keep)| <= |c| && Distinct(Only(c, keep))
    ensures forall n :: n in Only(c, keep) <==> n in c && n in keep
  {
    if c != [] {
      var r := c[1..];
      assert forall n :: n in c <==> n == c[0] || n in r;
      assert c[0] !in r;
      OnlyParts(r, keep);
      var o := Only(r, keep);
      if c[0] in keep {
        forall i, j | 0 <= i < j < |[c[0]] + o| ensures ([c[0]] + o)[i] != ([c[0]] + o)[j] {
          if i == 0 {
            assert o[j - 1] in o;
          }
        }
      }
    }
  }

  // After the others have moved on, what they still count in is what is kept of both.
  lemma Drifted(shared: seq<nat>, was: seq<nat>, left: seq<nat>, before: set<nat>, keep: set<nat>, after: set<nat>)
    requires Distinct(was) && Only(was, before) == Only(shared, before) && left == Only(was, keep) && after <= before && after <= keep
    ensures Distinct(left) && |left| <= |was| && Only(left, after) == Only(shared, after)
    ensures forall n :: n in left <==> n in was && n in keep
  {
    hide Only, Distinct;
    OnlyParts(was, keep);
    OnlyTwice(was, keep, after);
    OnlyTwice(was, before, after);
    OnlyTwice(shared, before, after);
  }

  lemma {:induction false} OnlyAll(c: seq<nat>, keep: set<nat>)
    requires forall n :: n in c ==> n in keep
    ensures Only(c, keep) == c
  {
    if c != [] {
      OnlyAll(c[1..], keep);
    }
  }

  lemma {:induction false} CutIsWithout(c: seq<nat>, k: nat)
    requires Distinct(c) && k < |c|
    ensures Without(c, c[k]) == c[..k] + c[k + 1..]
  {
    if k > 0 {
      CutIsWithout(c[1..], k - 1);
      assert c[1..][..k - 1] == c[1..k];
      assert c[1..][k..] == c[k + 1..];
      assert [c[0]] + c[1..k] == c[..k];
    }
  }

  // Taking out a number that is not kept changes nothing of what is kept.
  lemma {:induction false} Reduced(c: seq<nat>, keep: set<nat>, n: nat)
    requires Distinct(c)
    ensures Distinct(Without(c, n)) && (forall m :: m in Without(c, n) <==> m in c && m != n)
    ensures n in c ==> |Without(c, n)| == |c| - 1
    ensures n !in keep ==> Only(Without(c, n), keep) == Only(c, keep)
  {
    if c != [] {
      var r := c[1..];
      assert forall m :: m in c <==> m == c[0] || m in r;
      assert c[0] !in r;
      if c[0] != n {
        Reduced(r, keep, n);
        var w := Without(r, n);
        assert ([c[0]] + w)[1..] == w;
        forall i, j | 0 <= i < j < |[c[0]] + w| ensures ([c[0]] + w)[i] != ([c[0]] + w)[j] {
          if i == 0 {
            assert w[j - 1] in w;
          }
        }
      }
    }
  }

  lemma NumsAppend(c: seq<SegmentNode>, node: SegmentNode)
    requires Distinct(Nums(c)) && node.num !in Nums(c)
    ensures Nums(c + [node]) == Nums(c) + [node.num] && Distinct(Nums(c + [node]))
    ensures forall m :: m in Nums(c + [node]) <==> m in Nums(c) || m == node.num
  {}

  lemma HasNum(c: seq<SegmentNode>, node: SegmentNode)
    requires node in c
    ensures node.num in Nums(c)
  {
    var i :| 0 <= i < |c| && c[i] == node;
    assert Nums(c)[i] == node.num;
  }

  lemma NumsRest(c: seq<SegmentNode>)
    requires Distinct(Nums(c)) && c != []
    ensures Distinct(Nums(c[1..])) && Nums(c) == [c[0].num] + Nums(c[1..])
    ensures forall m :: m in Nums(c) && m != c[0].num ==> m in Nums(c[1..])
  {
    assert Nums(c) == [c[0].num] + Nums(c[1..]);
    assert Nums(c)[1..] == Nums(c[1..]);
  }

  // The nodes of `c` whose numbers are not among `ns`, in order.
  ghost function Rest(c: seq<SegmentNode>, ns: seq<nat>): seq<SegmentNode> {
    if c == [] then []
    else Rest(c[..|c| - 1], ns) + (if c[|c| - 1].num in ns then [] else [c[|c| - 1]])
  }

  lemma {:induction false} RestNone(c: seq<SegmentNode>)
    ensures Rest(c, []) == c
  {
    if c != [] {
      RestNone(c[..|c| - 1]);
    }
  }

  lemma DropFirst(c: seq<SegmentNode>)
    requires c != []
    ensures Without(c, c[0]) == c[1..]
  {}

  lemma FrontOnly(rest: seq<SegmentNode>, placed: seq<SegmentNode>)
    requires Distinct(rest + placed) && rest != [] && placed != []
    ensures (rest + placed)[0] != placed[0]
  {
    assert (rest + placed)[|rest|] == placed[0];
  }

  lemma {:induction false} RestMembers(c: seq<SegmentNode>, ns: seq<nat>)
    ensures forall x :: x in Rest(c, ns) <==> x in c && x.num !in ns
  {
    if c != [] {
      var n := |c| - 1;
      RestMembers(c[..n], ns);
      assert c == c[..n] + [c[n]];
    }
  }

  lemma NumsApart(c: seq<SegmentNode>, i: nat, j: nat)
    requires Distinct(Nums(c)) && i < |c| && j < |c| && i != j
    ensures c[i].num != c[j].num
  {
    assert Nums(c)[i] == c[i].num && Nums(c)[j] == c[j].num;
    if i < j {
    } else {
    }
  }

  lemma NumsFront(c: seq<SegmentNode>)
    requires Distinct(Nums(c)) && c != []
    ensures Distinct(Nums(c[..|c| - 1])) && forall y :: y in c[..|c| - 1] ==> y.num != c[|c| - 1].num
  {
    var n := |c| - 1;
    assert Nums(c[..n]) == Nums(c)[..n];
    forall y | y in c[..n] ensures y.num != c[n].num {
      var i :| 0 <= i < n && c[i] == y;
      NumsApart(c, i, n);
    }
  }

  lemma {:induction false} RestFound(c: seq<SegmentNode>, ns: seq<nat>, x: SegmentNode)
    requires Distinct(Nums(c)) && x in Rest(c, ns)
    ensures Rest(c, ns + [x.num]) == Without(Rest(c, ns), x)
  {
    hide Distinct, Without, Nums;
    var n := |c| - 1;
    var d := c[..n];
    NumsFront(c);
    RestMembers(d, ns);
    if c[n] == x {
      RestMissing(d, ns, x.num);
      WithoutLast(Rest(d, ns), x);
    } else {
      RestFound(d, ns, x);
      if c[n].num in ns {
        assert Rest(c, ns) == Rest(d, ns);
        assert Rest(c, ns + [x.num]) == Rest(d, ns + [x.num]);
      } else {
        assert c[n].num !in ns + [x.num];
        WithoutAppend(Rest(d, ns), c[n], x);
      }
    }
  }

  lemma {:induction false} RestMissing(c: seq<SegmentNode>, ns: seq<nat>, n: nat)
    requires forall y :: y in c && y.num !in ns ==> y.num != n
    ensures Rest(c, ns + [n]) == Rest(c, ns)
  {
    if c != [] {
      RestMissing(c[..|c| - 1], ns, n);
    }
  }

  // After following the next shared number, the old nodes still in front are
  // those not shared so far.
  lemma FollowSplit(c: seq<SegmentNode>, shared: seq<nat>, i: nat, placed: seq<SegmentNode>, c': seq<SegmentNode>, node: SegmentNode)
    requires i < |shared| && Distinct(shared) && Distinct(Nums(c)) && node.num == shared[i]
    requires Nums(placed) == shared[..i] && Followed(Rest(c, shared[..i]) + placed, c', node)
    ensures c' == Rest(c, shared[..i + 1]) + (placed + [node])
    ensures Nums(placed + [node]) == shared[..i + 1]
    ensures |c'| <= |Rest(c, shared[..i]) + placed| + 1
  {
    hide Without, Rest;
    var rest := Rest(c, shared[..i]);
    assert shared[..i] + [node.num] == shared[..i + 1];
    forall j | 0 <= j < |placed| ensures placed[j].num != node.num {
      assert Nums(placed)[j] == shared[j];
    }
    if node in rest + placed {
      assert node in rest;
      RestFound(c, shared[..i], node);
      WithoutFront(rest, placed, node);
    } else {
      forall y | y in c && y.num !in shared[..i] ensures y.num != node.num {
        RestMembers(c, shared[..i]);
        var j :| 0 <= j < |rest| && rest[j] == y;
        assert Nums(rest + placed)[j] == y.num;
      }
      RestMissing(c, shared[..i], node.num);
    }
  }

  lemma {:induction false} WithoutFront(a: seq<SegmentNode>, b: seq<SegmentNode>, x: SegmentNode)
    requires x in a
    ensures Without(a + b, x) == Without(a, x) + b && |Without(a, x)| == |a| - 1
  {
    assert (a + b)[1..] == a[1..] + b;
    if a[0] != x {
      WithoutFront(a[1..], b, x);
    }
  }

  lemma NoneNumbered(c: seq<SegmentNode>, n: nat)
    requires WithNum(c, n) == {}
    ensures n !in Nums(c)
  {
    assert forall i :: 0 <= i < |c| ==> c[i] !in WithNum(c, n);
  }

  // `node` has been appended or moved to the end.
  ghost predicate Followed(c: seq<SegmentNode>, c': seq<SegmentNode>, node: SegmentNode) {
    if node in c then c' == Without(c, node) + [node]
    else node.num !in Nums(c) && c' == c + [node]
  }

  // The nodes of `c` that are marked as wanted, in order.
  ghost function Keep(c: seq<SegmentNode>, p: set<nat>, want: bool): seq<SegmentNode> {
    if c == [] then []
    else Keep(c[..|c| - 1], p, want) + (if (c[|c| - 1].num in p) == want then [c[|c| - 1]] else [])
  }

  // The first `j` of the nodes in `c` have been walked over.
  ghost predicate Cleaned(c: seq<SegmentNode>, j: nat, now: seq<SegmentNode>, removed: seq<SegmentNode>, p: set<nat>) {
    j <= |c| && now == Keep(c[..j], p, false) + c[j..] && removed == Keep(c[..j], p, true)
  }

  lemma CleanedNone(c: seq<SegmentNode>, p: set<nat>)
    ensures Cleaned(c, 0, c, [], p)
  {
    assert c[..0] == [] && [] + c[0..] == c;
  }

  lemma CleanedAll(c: seq<SegmentNode>, now: seq<SegmentNode>, removed: seq<SegmentNode>, p: set<nat>)
    requires Cleaned(c, |c|, now, removed, p)
    ensures now == Keep(c, p, false) && removed == Keep(c, p, true)
  {
    assert c[..|c|] == c && c[|c|..] == [];
  }

  lemma CleanedNext(c: seq<SegmentNode>, j: nat, now: seq<SegmentNode>, removed: seq<SegmentNode>, p: set<nat>)
    requires j < |c| && Cleaned(c, j, now, removed, p)
    ensures
      var kept := Keep(c[..j], p, false);
      && now == kept + c[j..]
      && if c[j].num in p then Cleaned(c, j + 1, kept + c[j + 1..], removed + [c[j]], p)
         else Cleaned(c, j + 1, (kept + [c[j]]) + c[j + 1..], removed, p)
  {
    assert c[..j + 1][..j] == c[..j];
  }

  // The node after those kept so far, and what removing it leaves.
  lemma KeepRest(kept: seq<SegmentNode>, c: seq<SegmentNode>, j: nat)
    requires j < |c| && Distinct(kept + c[j..])
    ensures (kept + c[j..])[|kept|] == c[j] && Without(kept + c[j..], c[j]) == kept + c[j + 1..]
    ensures |kept + c[j..]| == |kept| + (|c| - j)
    ensures j + 1 < |c| ==> (kept + c[j..])[|kept| + 1] == c[j + 1]
    ensures kept + c[j..] == (kept + [c[j]]) + c[j + 1..]
  {
    WithoutIsCut(kept + c[j..], |kept|);
    assert (kept + c[j..])[..|kept|] == kept;
    assert (kept + c[j..])[|kept| + 1..] == c[j + 1..];
  }

  lemma {:induction false} WithoutIsCut(c: seq<SegmentNode>, k: nat)
    requires Distinct(c) && k < |c|
    ensures Without(c, c[k]) == c[..k] + c[k + 1..]
  {
    if k > 0 {
      WithoutIsCut(c[1..], k - 1);
      assert c[1..][..k - 1] == c[1..k];
      assert c[1..][k..] == c[k + 1..];
      assert [c[0]] + c[1..k] == c[..k];
    }
  }

  lemma {:induction false} NamedCountCut(c: seq<SegmentNode>, k: nat)
    requires k < |c|
    ensures NamedCount(c) == NamedCount(c[..k] + c[k + 1..]) + (if c[k].name != "" then 1 else 0)
    decreases |c|
  {
    var n := |c| - 1;
    var cut := c[..k] + c[k + 1..];
    if k < n {
      var d := c[..n];
      NamedCountCut(d, k);
      assert cut[..|cut| - 1] == d[..k] + d[k + 1..];
    } else {
      assert cut == c[..n];
    }
  }

  // Moving a node changes neither what is listed nor how many have names.
  lemma MovedSame(c: seq<SegmentNode>, k: nat)
    requires Distinct(c) && k < |c|
    ensures
      var moved := c[..k] + c[k + 1..] + [c[k]];
      && NamedCount(moved) == NamedCount(c)
      && (forall n :: WithNum(moved, n) == WithNum(c, n)) && (forall m :: WithName(moved, m) == WithName(c, m))
  {
    var cut := c[..k] + c[k + 1..];
    var moved := cut + [c[k]];
    NamedCountCut(c, k);
    assert moved[..|cut|] == cut;
    CutMembers(c, k);
    forall x ensures x in moved <==> x in c {}
  }

  lemma {:induction false} WithoutOnce(c: seq<SegmentNode>, x: SegmentNode)
    requires Distinct(c)
    ensures Distinct(Without(c, x)) && forall y :: y in Without(c, x) <==> y in c && y != x
  {
    if c != [] {
      var r := c[1..];
      assert forall y :: y in c <==> y == c[0] || y in r;
      if c[0] != x {
        WithoutOnce(r, x);
        assert c[0] !in r;
        assert c[0] !in Without(r, x);
        PrependDistinct(c[0], Without(r, x));
      } else {
        assert c[0] !in r;
      }
    }
  }

  lemma PrependDistinct(x: SegmentNode, c: seq<SegmentNode>)
    requires Distinct(c) && x !in c
    ensures Distinct([x] + c)
  {}

  lemma CutMembers(c: seq<SegmentNode>, k: nat)
    requires Distinct(c) && k < |c|
    ensures forall x :: x in c[..k] + c[k + 1..] <==> x in c && x != c[k]
  {
    forall x | x in c && x != c[k] ensures x in c[..k] + c[k + 1..] {
      var i :| 0 <= i < |c| && c[i] == x;
      if i > k {
        assert c[k + 1..][i - k - 1] == x;
      }
    }
  }

  // One node less in the list, and in the entries of its key.
  lemma FiledLess(was: seq<SegmentNode>, c: seq<SegmentNode>, k: nat, n: nat)
    requires k < |c| && Distinct(c) && Elems(was) == WithNum(c, n) && Distinct(was)
    ensures
      var now := if n == c[k].num then Without(was, c[k]) else was;
      Elems(now) == WithNum(c[..k] + c[k + 1..], n) && Distinct(now)
  {
    hide Without, Distinct;
    WithoutOnce(was, c[k]);
    CutMembers(c, k);
    var now := if n == c[k].num then Without(was, c[k]) else was;
    forall x ensures x in Elems(now) <==> x in WithNum(c[..k] + c[k + 1..], n) {
      assert x in Elems(was) <==> x in WithNum(c, n);
      assert x in now <==> x in was && (n == c[k].num ==> x != c[k]);
    }
    assert Elems(now) == WithNum(c[..k] + c[k + 1..], n);
  }

  lemma NamedLess(was: seq<SegmentNode>, c: seq<SegmentNode>, k: nat, n: string)
    requires k < |c| && Distinct(c) && Elems(was) == WithName(c, n) && Distinct(was)
    ensures
      var now := if n == c[k].name then Without(was, c[k]) else was;
      Elems(now) == WithName(c[..k] + c[k + 1..], n) && Distinct(now)
  {
    hide Without, Distinct;
    WithoutOnce(was, c[k]);
    CutMembers(c, k);
    var now := if n == c[k].name then Without(was, c[k]) else was;
    forall x ensures x in Elems(now) <==> x in WithName(c[..k] + c[k + 1..], n) {
      assert x in Elems(was) <==> x in WithName(c, n);
      assert x in now <==> x in was && (n == c[k].name ==> x != c[k]);
    }
    assert Elems(now) == WithName(c[..k] + c[k + 1..], n);
  }

  lemma NotNamed(c: seq<SegmentNode>)
    requires |c| > 0 && c[|c| - 1].name == ""
    ensures forall k :: WithName(c, k) == WithName(c[..|c| - 1], k)
  {
    assert c == c[..|c| - 1] + [c[|c| - 1]];
    forall k ensures WithName(c, k) == WithName(c[..|c| - 1], k) {
      assert forall x :: x in WithName(c, k) <==> x in WithName(c[..|c| - 1], k);
    }
  }

  // A node and its neighbours are found at their own positions only.
  lemma OnlyThere(c: seq<SegmentNode>, k: nat)
    requires Distinct(c) && k < |c|
    ensures forall i :: 0 <= i < |c| && c[i] == c[k] ==> i == k
    ensures k > 0 ==> forall i :: 0 <= i < |c| && c[i] == c[k - 1] ==> i == k - 1
    ensures k + 1 < |c| ==> forall i :: 0 <= i < |c| && c[i] == c[k + 1] ==> i == k + 1
  {}

  lemma CutDistinct(c: seq<SegmentNode>, k: nat)
    requires Distinct(c) && k < |c|
    ensures Distinct(c[..k] + c[k + 1..]) && c[k] !in c[..k] + c[k + 1..]
  {
    var cut := c[..k] + c[k + 1..];
    assert forall i :: 0 <= i < |cut| ==> cut[i] == c[if i < k then i else i + 1];
  }

  lemma DistinctAppend(c: seq<SegmentNode>, node: SegmentNode)
    requires Distinct(c) && node !in c
    ensures Distinct(c + [node])
  {}

  // One node more in the list, and in the entries of its key.
  lemma FiledMore(was: seq<SegmentNode>, c: seq<SegmentNode>, n: nat)
    requires |c| > 0 && c[|c| - 1] !in c[..|c| - 1]
    requires Elems(was) == WithNum(c[..|c| - 1], n) && Distinct(was)
    ensures
      var now := was + (if n == c[|c| - 1].num then [c[|c| - 1]] else []);
      Elems(now) == WithNum(c, n) && Distinct(now)
  {
    var node := c[|c| - 1];
    var now := was + (if n == node.num then [node] else []);
    assert c == c[..|c| - 1] + [node];
    forall x ensures x in Elems(now) <==> x in WithNum(c, n) {
      assert x in Elems(was) <==> x in WithNum(c[..|c| - 1], n);
    }
    assert node !in Elems(was);
    assert node !in was;
  }

  lemma NamedMore(was: seq<SegmentNode>, c: seq<SegmentNode>, k: string)
    requires |c| > 0 && c[|c| - 1] !in c[..|c| - 1] && c[|c| - 1].name != ""
    requires Elems(was) == WithName(c[..|c| - 1], k) && Distinct(was)
    ensures
      var now := was + (if k == c[|c| - 1].name then [c[|c| - 1]] else []);
      Elems(now) == WithName(c, k) && Distinct(now)
  {
    var node := c[|c| - 1];
    var now := was + (if k == node.name then [node] else []);
    assert c == c[..|c| - 1] + [node];
    forall x ensures x in Elems(now) <==> x in WithName(c, k) {
      assert x in Elems(was) <==> x in WithName(c[..|c| - 1], k);
    }
    assert node !in Elems(was);
    assert node !in was;
  }
}
