// The record forest behind an effect scope: the explicit-stack walks over it,
// and the recursive meaning each of them has.

module EffectTree {
  import opened Profiles
  import opened Sequences

  type EffectId = nat

  /** A plugin-authored inverse, drain phase or suspend path, by name. */
  datatype Disposer = Disposer(name: string)

  datatype Record = Record(
    id: EffectId, text: string, disposer: Disposer, drain: Option<Disposer>, suspend: Option<Disposer>,
    children: seq<Record>)

  type Forest = seq<Record>

  function Bare(record: Record): Record { record.(children := []) }

  /** Registration order: each effect before what nested under it. */
  function PreOrder(forest: Forest): seq<Record> {
    if forest == [] then []
    else [Bare(forest[0])] + PreOrder(forest[0].children) + PreOrder(forest[1..])
  }

  /** Teardown order: children before the effect they nested under, last registration first. */
  function Teardown(forest: Forest): seq<Record> {
    if forest == [] then [] else
      var last := forest[|forest| - 1];
      Teardown(last.children) + [Bare(last)] + Teardown(forest[..|forest| - 1])
  }

  function Size(forest: Forest): nat {
    if forest == [] then 0 else 1 + Size(forest[0].children) + Size(forest[1..])
  }

  lemma {:induction false} PreOrderJoin(a: Forest, b: Forest)
    ensures PreOrder(a + b) == PreOrder(a) + PreOrder(b)
    decreases |a|
  {
    if a == [] {
      assert a + b == b;
    } else {
      assert (a + b)[1..] == a[1..] + b;
      PreOrderJoin(a[1..], b);
    }
  }

  lemma {:induction false} TeardownJoin(a: Forest, b: Forest)
    ensures Teardown(a + b) == Teardown(b) + Teardown(a)
    decreases |b|
  {
    if b == [] {
      assert a + b == a;
    } else {
      assert (a + b)[..|a + b| - 1] == a + b[..|b| - 1];
      TeardownJoin(a, b[..|b| - 1]);
    }
  }

  lemma {:induction false} TeardownFirst(forest: Forest)
    requires forest != []
    ensures Teardown(forest) == Teardown(forest[1..]) + Teardown(forest[0].children) + [Bare(forest[0])]
  {
    var one := [forest[0]];
    assert forest == one + forest[1..] && one[..0] == [];
    TeardownJoin(one, forest[1..]);
    assert Teardown(one) == Teardown(forest[0].children) + [Bare(forest[0])] + Teardown([]);
  }

  /** Registration order turned round is teardown order. */
  lemma {:induction false} PreOrderReversed(forest: Forest)
    ensures Reversed(PreOrder(forest)) == Teardown(forest)
    ensures |PreOrder(forest)| == |Teardown(forest)| == Size(forest)
  {
    if forest != [] {
      PreOrderReversed(forest[0].children);
      PreOrderReversed(forest[1..]);
      TeardownFirst(forest);
      ReversedJoin([Bare(forest[0])], PreOrder(forest[0].children));
      ReversedJoin([Bare(forest[0])] + PreOrder(forest[0].children), PreOrder(forest[1..]));
      assert Reversed([Bare(forest[0])]) == [Bare(forest[0])];
    }
  }

  lemma {:induction false} SizeJoin(a: Forest, b: Forest)
    ensures Size(a + b) == Size(a) + Size(b)
    decreases |a|
  {
    if a == [] { assert a + b == b; } else { assert (a + b)[1..] == a[1..] + b; SizeJoin(a[1..], b); }
  }

  // ----- flatten

  /** Flattens a forest into teardown order, every record childless. */
  method Flatten(roots: Forest) returns (order: seq<Record>)
    ensures order == Teardown(roots)
    ensures forall record :: record in order ==> record.children == []
  {
    var stack := Reversed(roots);
    ghost var rest := roots;
    order := [];
    while stack != []
      invariant stack == Reversed(rest) && order + PreOrder(rest) == PreOrder(roots)
      decreases Size(rest)
    {
      var record := stack[|stack| - 1];
      assert record == rest[0];
      stack := stack[..|stack| - 1];
      order := order + [Bare(record)];
      stack := stack + Reversed(record.children);
      PopPush(rest);
      rest := record.children + rest[1..];
    }
    PreOrderReversed(roots);
    order := Reversed(order);
    TeardownBare(roots);
  }

  /** A popped record's children, pushed in its place, keep the order to come. */
  lemma {:induction false} PopPush(rest: Forest)
    requires rest != []
    ensures var next := rest[0].children + rest[1..];
            && Reversed(next) == Reversed(rest)[..|rest| - 1] + Reversed(rest[0].children)
            && PreOrder(rest) == [Bare(rest[0])] + PreOrder(next)
            && Size(next) < Size(rest)
  {
    hide PreOrder, Size;
    ReversedJoin(rest[0].children, rest[1..]);
    ReversedButFirst(rest);
    PreOrderPop(rest);
    SizePop(rest);
  }

  lemma {:induction false} ReversedButFirst<T>(s: seq<T>)
    requires s != []
    ensures Reversed(s)[..|s| - 1] == Reversed(s[1..])
  {
    ReversedJoin([s[0]], s[1..]);
    assert s == [s[0]] + s[1..];
  }

  lemma {:induction false} PreOrderPop(rest: Forest)
    requires rest != []
    ensures PreOrder(rest) == [Bare(rest[0])] + PreOrder(rest[0].children + rest[1..])
  {
    PreOrderJoin(rest[0].children, rest[1..]);
  }

  lemma {:induction false} SizePop(rest: Forest)
    requires rest != []
    ensures Size(rest[0].children + rest[1..]) < Size(rest)
  {
    SizeJoin(rest[0].children, rest[1..]);
  }

  lemma {:induction false} TeardownBare(forest: Forest)
    ensures forall record :: record in Teardown(forest) ==> record.children == []
  {
    if forest != [] {
      TeardownBare(forest[|forest| - 1].children);
      TeardownBare(forest[..|forest| - 1]);
    }
  }

  // ----- take_next

  /** The forest without the deepest last-registered record. */
  function WithoutNext(forest: Forest): Forest
    requires forest != []
  {
    var n := |forest| - 1;
    if forest[n].children == [] then forest[..n]
    else forest[n := forest[n].(children := WithoutNext(forest[n].children))]
  }

  lemma {:induction false} NextIsFirst(forest: Forest)
    requires forest != []
    ensures Teardown(forest) != [] && Teardown(WithoutNext(forest)) == Teardown(forest)[1..]
  {
    var n := |forest| - 1;
    var last := forest[n];
    if last.children == [] {
      assert Teardown(forest) == [Bare(last)] + Teardown(forest[..n]);
    } else {
      NextIsFirst(last.children);
      var rest := WithoutNext(forest);
      assert rest[..n] == forest[..n] && Bare(rest[n]) == Bare(last);
      assert Teardown(rest) == Teardown(WithoutNext(last.children)) + [Bare(last)] + Teardown(forest[..n]);
      assert Teardown(forest) == Teardown(last.children) + [Bare(last)] + Teardown(forest[..n]);
    }
  }

  /** The record at the end of a path of positions, each level's last. */
  function Deepest(forest: Forest): Record
    requires forest != []
  {
    var last := forest[|forest| - 1];
    if last.children == [] then last else Deepest(last.children)
  }

  lemma {:induction false} DeepestIsFirst(forest: Forest)
    requires forest != []
    ensures Teardown(forest) != [] && Deepest(forest) == Teardown(forest)[0] && Deepest(forest).children == []
  {
    var last := forest[|forest| - 1];
    if last.children != [] { DeepestIsFirst(last.children); } else { assert Bare(last) == last; }
  }

  /** Removes the next record to withdraw: the deepest last-registered live effect. */
  method TakeNext(roots: Forest) returns (next: Option<Record>, rest: Forest)
    ensures next.None? <==> roots == []
    ensures next.None? ==> rest == []
    ensures next.Some? ==> next.value.children == [] && Teardown(roots) == [next.value] + Teardown(rest)
  {
    if roots == [] { return None, []; }
    var level := roots;
    while level[|level| - 1].children != []
      invariant level != [] && Deepest(level) == Deepest(roots)
      decreases Size(level)
    {
      assert level == level[..|level| - 1] + [level[|level| - 1]];
      SizeJoin(level[..|level| - 1], [level[|level| - 1]]);
      level := level[|level| - 1].children;
    }
    DeepestIsFirst(roots);
    NextIsFirst(roots);
    return Some(level[|level| - 1]), WithoutNext(roots);
  }

  // ----- drains

  /** The forest with every drain phase taken. */
  function Drained(forest: Forest): Forest {
    if forest == [] then []
    else [forest[0].(drain := None, children := Drained(forest[0].children))] + Drained(forest[1..])
  }

  datatype Phase = Phase(id: EffectId, text: string, disposer: Disposer)

  /** The drain phases of a list of records, in order. */
  function Phases(records: seq<Record>): seq<Phase>
    decreases |records|
  {
    if records == [] then [] else Own(records[0]) + Phases(records[1..])
  }

  function Own(record: Record): seq<Phase> {
    if record.drain.Some? then [Phase(record.id, record.text, record.drain.value)] else []
  }

  lemma {:induction false} PhasesJoin(a: seq<Record>, b: seq<Record>)
    ensures Phases(a + b) == Phases(a) + Phases(b)
    decreases |a|
  {
    if a == [] {
      assert a + b == b;
    } else {
      PhasesJoin(a[1..], b);
      assert (a + b)[1..] == a[1..] + b && (a + b)[0] == a[0];
      hide Own;
      assert Phases(a + b) == Own(a[0]) + (Phases(a[1..]) + Phases(b));
      assert Phases(a) == Own(a[0]) + Phases(a[1..]);
    }
  }

  lemma {:induction false} PhasesReversed(records: seq<Record>)
    ensures Phases(Reversed(records)) == Reversed(Phases(records))
    decreases |records|
  {
    if records != [] {
      assert records == [records[0]] + records[1..];
      ReversedJoin([records[0]], records[1..]);
      assert Reversed([records[0]]) == [records[0]];
      PhasesReversed(records[1..]);
      PhasesJoin(Reversed(records[1..]), [records[0]]);
      var own := Phases([records[0]]);
      assert [records[0]][1..] == [];
      assert Phases(records) == own + Phases(records[1..]);
      ReversedJoin(own, Phases(records[1..]));
      assert Reversed(own) == own;
    }
  }

  /** The records with their drain phase gone. */
  function Cleared(records: seq<Record>): (cleared: seq<Record>)
    ensures |cleared| == |records| && forall i :: 0 <= i < |records| ==> cleared[i] == records[i].(drain := None)
  {
    seq(|records|, i requires 0 <= i < |records| => records[i].(drain := None))
  }

  lemma {:induction false} ClearedPhases(records: seq<Record>)
    requires forall record :: record in records ==> record.drain.None?
    ensures Phases(records) == []
    decreases |records|
  {
    if records != [] { ClearedPhases(records[1..]); }
  }

  lemma {:induction false} DrainedPreOrder(forest: Forest)
    ensures PreOrder(Drained(forest)) == Cleared(PreOrder(forest))
  {
    if forest != [] {
      var d := Drained(forest);
      assert d[1..] == Drained(forest[1..]);
      DrainedPreOrder(forest[0].children);
      DrainedPreOrder(forest[1..]);
      var a, b, c := [Bare(forest[0])], PreOrder(forest[0].children), PreOrder(forest[1..]);
      assert Cleared(a + b + c) == Cleared(a) + Cleared(b) + Cleared(c);
    }
  }

  /** Takes every pending drain phase in teardown order; every effect stays, its inverse still owed. */
  method Drains(roots: Forest) returns (collected: seq<Phase>, rest: Forest)
    ensures collected == Phases(Teardown(roots))
    ensures rest == Drained(roots)
  {
    hide PreOrder, Size, Phases, Teardown, Reversed;
    var stack := Reversed(roots);
    ghost var to := roots;
    collected := [];
    while stack != []
      invariant stack == Reversed(to) && |stack| == |to| && collected + Phases(PreOrder(to)) == Phases(PreOrder(roots))
      decreases Size(to)
    {
      var record := stack[|stack| - 1];
      assert record == to[0];
      PopPush(to);
      PhasesPop(to);
      stack := stack[..|stack| - 1];
      if record.drain.Some? {
        collected := collected + [Phase(record.id, record.text, record.drain.value)];
      }
      stack := stack + Reversed(record.children);
      to := record.children + to[1..];
    }
    assert to == [];
    NoPhases();
    collected := Reversed(collected);
    PhasesReversed(PreOrder(roots));
    PreOrderReversed(roots);
    rest := Drained(roots);
  }

  lemma NoPhases()
    ensures PreOrder([]) == [] && Phases(PreOrder([])) == []
  {}

  lemma {:induction false} PhasesPop(to: Forest)
    requires to != []
    ensures Reversed(to) != [] && Reversed(to)[|to| - 1] == to[0] && |Reversed(to)| == |to|
    ensures Phases(PreOrder(to)) == Own(to[0]) + Phases(PreOrder(to[0].children + to[1..]))
  {
    PreOrderPop(to);
    PhasesJoin([Bare(to[0])], PreOrder(to[0].children + to[1..]));
    assert [Bare(to[0])][1..] == [];
  }

  /** Draining leaves every effect in its place in the teardown, and no phase to take twice. */
  lemma {:induction false} DrainOnce(forest: Forest)
    ensures Phases(Teardown(Drained(forest))) == []
    ensures Teardown(Drained(forest)) == Cleared(Teardown(forest))
  {
    DrainedPreOrder(forest);
    PreOrderReversed(forest);
    PreOrderReversed(Drained(forest));
    assert Reversed(Cleared(PreOrder(forest))) == Cleared(Reversed(PreOrder(forest)));
    ClearedPhases(Teardown(Drained(forest)));
  }
}
