/** Whatever the subscripts, slices that fill their slots lie inside the array. */
module SliceBounds {
  import opened Options
  import opened Products
  import opened Slicing
  import opened SliceParsing
  import opened SliceTheorems
  import opened SubscriptParser

  predicate Inside(c: seq<nat>, total: nat) {
    forall x :: 0 <= x < |c| ==> c[x] < total
  }

  // The walk over the base subscript tests each slice with its own length.
  lemma {:induction false} BaseInside(v: seq<nat>, lens: seq<nat>, i: nat, mult: nat, anchor: nat, total: nat)
    requires (forall k :: 0 <= k < |v| ==> v[k] >= 1) && BaseStarts(v, lens, i, mult, anchor, total).Some?
    ensures
      var w := BaseStarts(v, lens, i, mult, anchor, total).value;
      |w| <= |lens| && (|w| == |lens| ==> Inside(Group(w, lens), total))
    decreases |lens|
  {
    if i < |v| && lens != [] {
      var start := anchor + (v[i] - 1) * mult;
      BaseInside(v, lens[1..], i + lens[0], mult, anchor, total);
      var rest := BaseStarts(v, lens[1..], i + lens[0], mult, anchor, total).value;
      assert ([start] + rest)[1..] == rest;
    }
  }

  // What one call of the recursion finds: at most as many starts as it has slots, and
  // if as many, all inside.
  ghost predicate Within(w: Option<seq<nat>>, lens: seq<nat>, total: nat, room: nat) {
    w.Some? ==> |w.value| <= room && (|w.value| == room ==> Inside(Expand(w.value, lens), total))
  }

  lemma BaseWithin(v: seq<nat>, lens: seq<nat>, mult: nat, anchor: nat, total: nat)
    requires lens != [] && forall k :: 0 <= k < |v| ==> v[k] >= 1
    ensures Within(BaseStarts(v, lens, 0, mult, anchor, total), lens, total, |lens|)
  {
    hide Expand, Group, BaseStarts;
    var w := BaseStarts(v, lens, 0, mult, anchor, total);
    if w.Some? {
      BaseInside(v, lens, 0, mult, anchor, total);
      if |w.value| == |lens| {
        ExpandGroup(w.value, lens);
      }
    }
  }

  lemma AllWithin(lens: seq<nat>, anchor: nat, total: nat)
    requires lens != [] && anchor + lens[0] <= total
    ensures Within(Some([anchor]), lens, total, |lens|)
  {
    if |lens| == 1 {
      ExpandGroup([anchor], lens);
      assert [anchor][1..] == [] && lens[1..] == [];
    }
  }

  lemma JoinWithin(a: Option<seq<nat>>, b: Option<seq<nat>>, lens: seq<nat>, total: nat, room: nat, k: nat, n: nat)
    requires lens != [] && room == k * |lens| && n >= 1
    requires Within(a, lens, total, room) && Within(b, lens, total, Slots(n - 1, room))
    ensures Within(Joined(a, b), lens, total, Slots(n, room))
  {
    hide Expand;
    MulSum(n - 1, 1, room);
    if a.Some? && b.Some? && |a.value + b.value| == Slots(n, room) {
      ExpandConcat(a.value, k, b.value, lens);
    }
  }

  lemma NoneWithin(lens: seq<nat>, total: nat, room: nat)
    requires lens != []
    ensures Within(Some([]), lens, total, Slots(0, room))
  {}

  lemma {:induction false} WorkerWithin(dims: seq<nat>, subs: seq<Sub>, total: nat, lens: seq<nat>, c: nat, base: nat, mult: nat, anchor: nat)
    requires c < |subs| && Positive(dims, subs) && lens != []
    ensures Within(WorkerStarts(dims, subs, total, lens, c, base, mult, anchor), lens, total, Room(dims, subs, |lens|, c, base))
    decreases c, 0
  {
    hide Expand, BaseStarts, Within, Room, Slots;
    RoomNext(dims, subs, |lens|, c, base);
    if c > base {
      var room := Room(dims, subs, |lens|, c - 1, base);
      var k := RoomGrouped(dims, subs, |lens|, c - 1, base);
      if c < |dims| {
        EachWithin(dims, subs, total, lens, c, base, mult, anchor, Picked(subs[c], dims[c]), k);
        SlotsAre(Choices(dims, subs, c), room);
      } else if subs[c].All? {
        WorkerWithin(dims, subs, total, lens, c - 1, base, mult, anchor);
      } else {
        RepeatWithin(dims, subs, total, lens, c, base, mult, anchor, |subs[c].indices|, k);
        SlotsAre(Choices(dims, subs, c), room);
      }
    } else {
      match subs[c]
      case All =>
        if total >= anchor + lens[0] {
          AllWithin(lens, anchor, total);
        } else {
          NoWithin(lens, total, |lens|);
        }
      case Idx(v) => BaseWithin(v, lens, mult, anchor, total);
    }
  }

  lemma SlotsAre(n: nat, room: nat)
    ensures Slots(n, room) == room * n
  {}

  lemma NoWithin(lens: seq<nat>, total: nat, room: nat)
    ensures Within(None, lens, total, room)
  {}

  lemma {:induction false} EachWithin(dims: seq<nat>, subs: seq<Sub>, total: nat, lens: seq<nat>, c: nat, base: nat, mult: nat, anchor: nat, v: seq<nat>, k: nat)
    requires base < c < |subs| && c < |dims| && Positive(dims, subs) && (forall j :: 0 <= j < |v| ==> v[j] >= 1) && lens != []
    requires Room(dims, subs, |lens|, c - 1, base) == k * |lens|
    ensures Within(EachStarts(dims, subs, total, lens, c, base, mult, anchor, v), lens, total, Slots(|v|, Room(dims, subs, |lens|, c - 1, base)))
    decreases c - 1, 1, |v|
  {
    hide WorkerStarts, Room, Within, Slots;
    var room := Room(dims, subs, |lens|, c - 1, base);
    if v == [] {
      NoneWithin(lens, total, room);
    } else {
      WorkerWithin(dims, subs, total, lens, c - 1, base, mult / dims[c - 1], anchor + (v[0] - 1) * mult);
      EachWithin(dims, subs, total, lens, c, base, mult, anchor, v[1..], k);
      JoinWithin(WorkerStarts(dims, subs, total, lens, c - 1, base, mult / dims[c - 1], anchor + (v[0] - 1) * mult),
                 EachStarts(dims, subs, total, lens, c, base, mult, anchor, v[1..]), lens, total, room, k, |v|);
    }
  }

  lemma {:induction false} RepeatWithin(dims: seq<nat>, subs: seq<Sub>, total: nat, lens: seq<nat>, c: nat, base: nat, mult: nat, anchor: nat, n: nat, k: nat)
    requires base < c < |subs| && Positive(dims, subs) && lens != []
    requires Room(dims, subs, |lens|, c - 1, base) == k * |lens|
    ensures Within(RepeatStarts(dims, subs, total, lens, c, base, mult, anchor, n), lens, total, Slots(n, Room(dims, subs, |lens|, c - 1, base)))
    decreases c - 1, 1, n
  {
    hide WorkerStarts, Room, Within, Slots;
    var room := Room(dims, subs, |lens|, c - 1, base);
    if n == 0 {
      NoneWithin(lens, total, room);
    } else {
      WorkerWithin(dims, subs, total, lens, c - 1, base, mult, anchor);
      RepeatWithin(dims, subs, total, lens, c, base, mult, anchor, n - 1, k);
      JoinWithin(WorkerStarts(dims, subs, total, lens, c - 1, base, mult, anchor),
                 RepeatStarts(dims, subs, total, lens, c, base, mult, anchor, n - 1), lens, total, room, k, n);
    }
  }

  // Slots are never overrun; when all are written, every element of every slice is in
  // the array, in range or not as the indices were.
  lemma SlicesInside(dims: seq<nat>, subs: seq<Sub>)
    requires |subs| >= 1 && |dims| >= 1 && Positive(dims, subs) && ParsedStarts(dims, subs).Some?
    ensures
      var w := ParsedStarts(dims, subs).value;
      && (SliceLens(dims, subs) != [] ==> |w| <= NumStarts(dims, subs))
      && (|w| == NumStarts(dims, subs) ==> Inside(Expand(w, SliceLens(dims, subs)), Prod(dims)))
  {
    hide Prod, BaseDim, SliceLens, WorkerStarts, Room, Stride;
    var lens := SliceLens(dims, subs);
    if lens != [] {
      var top := if |subs| < |dims| then |subs| else |dims|;
      WorkerWithin(dims, subs, Prod(dims), lens, |subs| - 1, BaseDim(dims, subs, 0), Stride(dims, top - 1), 0);
    }
  }
}
