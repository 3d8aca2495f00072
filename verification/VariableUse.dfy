/** How many processes use a shared variable: each marks its own copy, and the
    count in the segment follows one atomic step later. */
module VariableUse {

  type Proc = nat

  // What one process has of the variable: nothing, a variable not marked as used,
  // one just marked, one marked and counted, and one no longer marked but still
  // counted, which is being destroyed or was only found to have no copies left.
  datatype Use = NoVariable | Unused | Marking | Counted | Unmarking(destroying: bool)

  // `procsUsing` is the count in the segment; `lastOut` are the processes that
  // brought it down to zero and may collect the segment.
  datatype State = State(procsUsing: int, uses: map<Proc, Use>, lastOut: seq<Proc>)

  datatype Action = Create | Copy(willSetUsed: bool) | Clean(hasCopies: bool) | Destroy | GoOn

  predicate Marked(u: Use) {
    u == Marking || u == Counted
  }

  predicate InCount(u: Use) {
    u == Counted || u.Unmarking?
  }

  function Step(s: State, p: Proc, a: Action): State
    requires p in s.uses
  {
    var u := s.uses[p];
    if u == Marking then State(s.procsUsing + 1, s.uses[p := Counted], s.lastOut)
    else if u.Unmarking? then
      State(s.procsUsing - 1, s.uses[p := if u.destroying then NoVariable else Unused],
            if s.procsUsing - 1 == 0 then s.lastOut + [p] else s.lastOut)
    else
      match a
      case Create => if u == NoVariable then s.(uses := s.uses[p := Unused]) else s
      case Copy(willSetUsed) => if u == Unused && willSetUsed then s.(uses := s.uses[p := Marking]) else s
      case Clean(hasCopies) => if u == Counted && !hasCopies then s.(uses := s.uses[p := Unmarking(false)]) else s
      case Destroy =>
        if u == Counted then s.(uses := s.uses[p := Unmarking(true)])
        else if u == Unused then s.(uses := s.uses[p := NoVariable])
        else s
      case GoOn => s
  }

  ghost function CountedIn(uses: map<Proc, Use>): set<Proc> {
    set p | p in uses && InCount(uses[p])
  }

  ghost function MarkedIn(uses: map<Proc, Use>): set<Proc> {
    set p | p in uses && Marked(uses[p])
  }

  function Run(s: State, sched: seq<(Proc, Action)>): (t: State)
    requires forall i :: 0 <= i < |sched| ==> sched[i].0 in s.uses
    ensures t.uses.Keys == s.uses.Keys
  {
    if sched == [] then s
    else
      var k := |sched| - 1;
      var t := Run(s, sched[..k]);
      assert sched[k].0 in t.uses.Keys;
      Step(t, sched[k].0, sched[k].1)
  }

  ghost predicate Init(s: State) {
    s.procsUsing == 0 && s.lastOut == [] && forall p :: p in s.uses ==> s.uses[p] == NoVariable
  }

  lemma StepKeeps(s: State, p: Proc, a: Action)
    requires p in s.uses && s.procsUsing == |CountedIn(s.uses)|
    ensures Step(s, p, a).procsUsing == |CountedIn(Step(s, p, a).uses)|
  {
    hide CountedIn;
    var t := Step(s, p, a);
    if t != s {
      assert t.uses == s.uses[p := t.uses[p]];
      OneChange(s.uses, p, t.uses[p]);
    }
  }

  lemma OneChange(uses: map<Proc, Use>, p: Proc, u: Use)
    requires p in uses
    ensures |CountedIn(uses[p := u])| == |CountedIn(uses)| + (if InCount(u) then 1 else 0) - (if InCount(uses[p]) then 1 else 0)
  {
    var others := CountedIn(uses) - {p};
    assert CountedIn(uses) == if InCount(uses[p]) then others + {p} else others;
    assert CountedIn(uses[p := u]) == if InCount(u) then others + {p} else others;
  }

  lemma {:induction false} CountExact(s0: State, sched: seq<(Proc, Action)>)
    requires Init(s0) && forall i :: 0 <= i < |sched| ==> sched[i].0 in s0.uses
    ensures Run(s0, sched).procsUsing == |CountedIn(Run(s0, sched).uses)|
  {
    if sched == [] {
      assert CountedIn(s0.uses) == {};
    } else {
      var k := |sched| - 1;
      CountExact(s0, sched[..k]);
      assert sched[k].0 in Run(s0, sched[..k]).uses.Keys;
      StepKeeps(Run(s0, sched[..k]), sched[k].0, sched[k].1);
    }
  }

  // Between directives the count is the number of processes whose variable is
  // marked as used.
  lemma UsersCounted(s0: State, sched: seq<(Proc, Action)>)
    requires Init(s0) && forall i :: 0 <= i < |sched| ==> sched[i].0 in s0.uses
    requires var t := Run(s0, sched); forall p :: p in t.uses ==> t.uses[p] != Marking && !t.uses[p].Unmarking?
    ensures Run(s0, sched).procsUsing == |MarkedIn(Run(s0, sched).uses)|
  {
    CountExact(s0, sched);
    assert CountedIn(Run(s0, sched).uses) == MarkedIn(Run(s0, sched).uses);
  }

  // A process becomes the one to collect the segment exactly when it gives up its
  // use and no other process is counted.
  lemma LastOne(s0: State, sched: seq<(Proc, Action)>, p: Proc, a: Action)
    requires Init(s0) && (forall i :: 0 <= i < |sched| ==> sched[i].0 in s0.uses) && p in s0.uses
    ensures p in Run(s0, sched).uses.Keys
    ensures
      var s := Run(s0, sched);
      Step(s, p, a).lastOut == s.lastOut + [p] <==>
      s.uses[p].Unmarking? && forall q :: q in s.uses && q != p ==> !InCount(s.uses[q])
  {
    var s := Run(s0, sched);
    assert p in s.uses.Keys;
    CountExact(s0, sched);
    var c := CountedIn(s.uses);
    if s.uses[p].Unmarking? {
      assert p in c;
      if forall q :: q in s.uses && q != p ==> !InCount(s.uses[q]) {
        assert c == {p};
      } else {
        var q :| q in s.uses && q != p && InCount(s.uses[q]);
        assert {p, q} <= c;
        Bigger({p, q}, c);
      }
    }
  }

  lemma Bigger<T>(a: set<T>, b: set<T>)
    requires a <= b
    ensures |a| <= |b|
  {
    assert b == a + (b - a);
  }

  // ----- what MATLAB has -----

  // `copies` are the processes where MATLAB has copies of the variable, `used` those
  // that have had copies ever since one was made that marks the variable as used.
  datatype World = World(s: State, copies: set<Proc>, used: set<Proc>)

  // What happens in a process: MATLAB frees the last copy, or the process goes on or
  // does something.  Cleaning asks MATLAB whether it has copies.
  datatype Event = Freed | Creates | Copies(willSetUsed: bool) | Cleans | Destroys | GoesOn

  function Act(w: World, p: Proc, e: Event): Action {
    match e
    case Creates => Create
    case Copies(willSetUsed) => Copy(willSetUsed)
    case Cleans => Clean(p in w.copies)
    case Destroys => Destroy
    case _ => GoOn
  }

  predicate Busy(u: Use) {
    u == Marking || u.Unmarking?
  }

  // A copy is made after the variable has been marked and counted, and MATLAB's copies
  // are detached when the variable is destroyed.
  function Happens(w: World, p: Proc, e: Event): (t: World)
    requires p in w.s.uses
    ensures t.s.uses.Keys == w.s.uses.Keys
  {
    var u := w.s.uses[p];
    if e == Freed then World(w.s, w.copies - {p}, w.used - {p})
    else
      var t := Step(w.s, p, Act(w, p, e));
      if u == Marking then World(t, w.copies + {p}, w.used + {p})
      else if Busy(u) || u == NoVariable then World(t, w.copies, w.used)
      else if e.Copies? && t.uses[p] == Marking then World(t, w.copies, w.used)
      else if e.Copies? then World(t, w.copies + {p}, if e.willSetUsed then w.used + {p} else w.used)
      else if e == Destroys then World(t, w.copies - {p}, w.used - {p})
      else World(t, w.copies, w.used)
  }

  function History(w: World, events: seq<(Proc, Event)>): (t: World)
    requires forall i :: 0 <= i < |events| ==> events[i].0 in w.s.uses
    ensures t.s.uses.Keys == w.s.uses.Keys
  {
    if events == [] then w
    else
      var k := |events| - 1;
      var t := History(w, events[..k]);
      assert events[k].0 in t.s.uses.Keys;
      Happens(t, events[k].0, events[k].1)
  }

  ghost predicate Begins(w: World) {
    Init(w.s) && w.copies == {} && w.used == {}
  }

  ghost predicate Faithful(w: World) {
    && w.s.procsUsing == |CountedIn(w.s.uses)| && w.used <= w.copies
    && (forall p :: p in w.used ==> p in w.s.uses && w.s.uses[p] == Counted)
  }

  lemma HappensKeeps(w: World, p: Proc, e: Event)
    requires p in w.s.uses && Faithful(w)
    ensures Faithful(Happens(w, p, e))
  {
    hide CountedIn;
    StepKeeps(w.s, p, Act(w, p, e));
  }

  lemma {:induction false} HistoryKeeps(w: World, events: seq<(Proc, Event)>)
    requires Begins(w) && forall i :: 0 <= i < |events| ==> events[i].0 in w.s.uses
    ensures Faithful(History(w, events))
  {
    hide Happens;
    if events == [] {
      assert CountedIn(w.s.uses) == {};
    } else {
      var k := |events| - 1;
      HistoryKeeps(w, events[..k]);
      assert events[k].0 in History(w, events[..k]).s.uses.Keys;
      HappensKeeps(History(w, events[..k]), events[k].0, events[k].1);
    }
  }

  // Whatever happens anywhere, a variable whose marked copies MATLAB still has is
  // marked and counted ...
  lemma CopiesCounted(w: World, events: seq<(Proc, Event)>, p: Proc)
    requires Begins(w) && (forall i :: 0 <= i < |events| ==> events[i].0 in w.s.uses) && p in History(w, events).used
    ensures var t := History(w, events); p in t.copies && p in t.s.uses && t.s.uses[p] == Counted && t.s.procsUsing >= 1
  {
    HistoryKeeps(w, events);
    var t := History(w, events);
    assert {p} <= CountedIn(t.s.uses);
    Bigger({p}, CountedIn(t.s.uses));
  }

  // ... and nobody else becomes the one to collect its segment.
  lemma NotCollected(w: World, events: seq<(Proc, Event)>, p: Proc, q: Proc, e: Event)
    requires Begins(w) && (forall i :: 0 <= i < |events| ==> events[i].0 in w.s.uses)
    requires p in w.s.uses && q != p && q in History(w, events).used
    ensures p in History(w, events).s.uses
    ensures Happens(History(w, events), p, e).s.lastOut == History(w, events).s.lastOut
  {
    hide History, CountedIn;
    HistoryKeeps(w, events);
    var t := History(w, events);
    assert p in t.s.uses.Keys;
    if t.s.uses[p].Unmarking? {
      TwoCounted(t.s.uses, p, q);
    }
  }

  lemma TwoCounted(uses: map<Proc, Use>, p: Proc, q: Proc)
    requires p in uses && q in uses && p != q && InCount(uses[p]) && InCount(uses[q])
    ensures |CountedIn(uses)| >= 2
  {
    Bigger({p, q}, CountedIn(uses));
  }

  lemma HistoryNext(w: World, events: seq<(Proc, Event)>, p: Proc, e: Event)
    requires (forall i :: 0 <= i < |events| ==> events[i].0 in w.s.uses) && p in w.s.uses
    ensures p in History(w, events).s.uses
    ensures History(w, events + [(p, e)]) == Happens(History(w, events), p, e)
  {
    hide Happens;
    assert (events + [(p, e)])[..|events|] == events;
    assert p in History(w, events).s.uses.Keys;
  }

  // Before it is counted a variable is not safe yet: one process has marked it and is
  // about to count itself, while another one that was the only one counted gives up and
  // becomes the collector.
  lemma MarkedTooLate(w: World) returns (events: seq<(Proc, Event)>)
    requires Begins(w) && w.s.uses.Keys == {0, 1}
    ensures forall i :: 0 <= i < |events| ==> events[i].0 in w.s.uses
    ensures var t := History(w, events); 1 in t.s.uses && t.s.uses[1] == Marking && t.s.lastOut == [0]
  {
    hide History, Happens;
    events := UsedOnce(w);
    events := OnceMore(w, events, 0, Cleans);
    TwoHappen(1, Counted, NoVariable, {}, {}, 0, Cleans);
    events := OnceMore(w, events, 1, Creates);
    TwoHappen(1, Unmarking(false), NoVariable, {}, {}, 1, Creates);
    events := OnceMore(w, events, 1, Copies(true));
    TwoHappen(1, Unmarking(false), Unused, {}, {}, 1, Copies(true));
    events := OnceMore(w, events, 0, GoesOn);
    TwoHappen(1, Unmarking(false), Marking, {}, {}, 0, GoesOn);
  }

  lemma UsedOnce(w: World) returns (events: seq<(Proc, Event)>)
    requires Begins(w) && w.s.uses.Keys == {0, 1}
    ensures forall i :: 0 <= i < |events| ==> events[i].0 in w.s.uses
    ensures History(w, events) == World(State(1, map[0 := Counted, 1 := NoVariable], []), {}, {})
  {
    hide History, Happens;
    var none: set<Proc> := {};
    assert none + {0} == {0} && {0} - {0} == none;
    events := [];
    NoHistory(w);
    assert w.s.uses == map[0 := NoVariable, 1 := NoVariable];
    events := OnceMore(w, events, 0, Creates);
    TwoHappen(0, NoVariable, NoVariable, {}, {}, 0, Creates);
    events := OnceMore(w, events, 0, Copies(true));
    TwoHappen(0, Unused, NoVariable, {}, {}, 0, Copies(true));
    events := OnceMore(w, events, 0, GoesOn);
    TwoHappen(0, Marking, NoVariable, {}, {}, 0, GoesOn);
    events := OnceMore(w, events, 0, Freed);
    TwoHappen(1, Counted, NoVariable, {0}, {0}, 0, Freed);
  }

  lemma NoHistory(w: World)
    ensures History(w, []) == w
  {}

  // One event with two processes.
  lemma TwoHappen(n: int, a: Use, b: Use, copies: set<Proc>, used: set<Proc>, p: Proc, e: Event)
    requires p == 0 || p == 1
    ensures
      var w := World(State(n, map[0 := a, 1 := b], []), copies, used);
      var u := if p == 0 then a else b;
      var t := Happens(w, p, e);
      && (e == Creates && u == NoVariable ==> t == World(State(n, map[0 := if p == 0 then Unused else a, 1 := if p == 0 then b else Unused], []), copies, used))
      && (e == Copies(true) && u == Unused ==> t == World(State(n, map[0 := if p == 0 then Marking else a, 1 := if p == 0 then b else Marking], []), copies, used))
      && (e == GoesOn && a == Marking && p == 0 ==> t == World(State(n + 1, map[0 := Counted, 1 := b], []), copies + {0}, used + {0}))
      && (e == Freed ==> t == World(w.s, copies - {p}, used - {p}))
      && (e == Cleans && a == Counted && p == 0 && 0 !in copies ==> t == World(State(n, map[0 := Unmarking(false), 1 := b], []), copies, used))
      && (e == GoesOn && a == Unmarking(false) && n == 1 && p == 0 ==> t == World(State(0, map[0 := Unused, 1 := b], [0]), copies, used))
  {
    var m := map[0 := a, 1 := b];
    assert forall x :: m[0 := x] == map[0 := x, 1 := b] && m[1 := x] == map[0 := a, 1 := x];
  }

  lemma OnceMore(w: World, events: seq<(Proc, Event)>, p: Proc, e: Event) returns (more: seq<(Proc, Event)>)
    requires (forall i :: 0 <= i < |events| ==> events[i].0 in w.s.uses) && p in w.s.uses
    ensures forall i :: 0 <= i < |more| ==> more[i].0 in w.s.uses
    ensures p in History(w, events).s.uses && History(w, more) == Happens(History(w, events), p, e)
  {
    HistoryNext(w, events, p, e);
    more := events + [(p, e)];
  }

  lemma RunOne(s: State, p: Proc, a: Action)
    requires p in s.uses
    ensures Run(s, [(p, a)]) == Step(s, p, a)
  {
    var one := [(p, a)];
    assert one[..0] == [];
  }

  lemma RunTwo(s: State, p: Proc, a: Action, b: Action)
    requires p in s.uses
    ensures p in Step(s, p, a).uses && Run(s, [(p, a), (p, b)]) == Step(Step(s, p, a), p, b)
  {
    var two := [(p, a), (p, b)];
    assert two[..1] == [(p, a)];
    RunOne(s, p, a);
  }

  // What each action achieves, whoever else does what meanwhile is counted too: after a
  // clean with no copies left, and one more step, the use is given up and counted out.
  lemma CleansUp(s: State, p: Proc, a: Action)
    requires p in s.uses && s.uses[p] == Counted
    ensures var t := Run(s, [(p, Clean(false)), (p, a)]);
      t.uses == s.uses[p := Unused] && t.procsUsing == s.procsUsing - 1 && t.lastOut == if s.procsUsing == 1 then s.lastOut + [p] else s.lastOut
    ensures Run(s, [(p, Clean(true))]) == s
  {
    RunTwo(s, p, Clean(false), a);
    RunOne(s, p, Clean(true));
    assert s.uses[p := Unmarking(false)][p := Unused] == s.uses[p := Unused];
  }

  // A copy that marks an unused variable, and one more step, counts it in; one that does
  // not mark it, or of a used variable, changes nothing.
  lemma CountsIn(s: State, p: Proc, a: Action)
    requires p in s.uses
    ensures s.uses[p] == Unused ==>
      Run(s, [(p, Copy(true)), (p, a)]) == State(s.procsUsing + 1, s.uses[p := Counted], s.lastOut) && Run(s, [(p, Copy(false))]) == s
    ensures s.uses[p] == Counted ==> forall b :: Run(s, [(p, Copy(b))]) == s
  {
    RunTwo(s, p, Copy(true), a);
    RunOne(s, p, Copy(false));
    assert s.uses[p := Marking][p := Counted] == s.uses[p := Counted];
    forall b ensures s.uses[p] == Counted ==> Run(s, [(p, Copy(b))]) == s {
      RunOne(s, p, Copy(b));
    }
  }

  // A variable comes unused; it is destroyed at once if unused, and counted out first if
  // used.
  lemma ComesAndGoes(s: State, p: Proc, a: Action)
    requires p in s.uses
    ensures s.uses[p] == NoVariable ==> Run(s, [(p, Create)]) == s.(uses := s.uses[p := Unused])
    ensures s.uses[p] == Unused ==> Run(s, [(p, Destroy)]) == s.(uses := s.uses[p := NoVariable])
    ensures s.uses[p] == Counted ==>
      var t := Run(s, [(p, Destroy), (p, a)]);
      t.uses == s.uses[p := NoVariable] && t.procsUsing == s.procsUsing - 1 && t.lastOut == if s.procsUsing == 1 then s.lastOut + [p] else s.lastOut
  {
    RunOne(s, p, Create);
    RunOne(s, p, Destroy);
    RunTwo(s, p, Destroy, a);
    assert s.uses[p := Unmarking(true)][p := NoVariable] == s.uses[p := NoVariable];
  }
}
