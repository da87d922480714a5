// Publishing a forest as descriptors without recursion: a pre-order pass that
// notes each record's parent, and a pass from the back that builds the image.

module EffectImage {
  import opened Profiles
  import opened Sequences
  import opened EffectTree

  datatype Descriptor = Descriptor(id: EffectId, text: string, children: seq<Descriptor>)

  /** The image of a forest, effect by effect. */
  function Images(forest: Forest): seq<Descriptor> {
    if forest == [] then []
    else [Descriptor(forest[0].id, forest[0].text, Images(forest[0].children))] + Images(forest[1..])
  }

  function Image(record: Record): Descriptor { Descriptor(record.id, record.text, Images(record.children)) }

  /** A record and the position of the one it nested under. */
  datatype Node = Node(record: Record, parent: Option<nat>)

  function Under(forest: Forest, parent: Option<nat>): (nodes: seq<Node>)
    ensures |nodes| == |forest| && forall i :: 0 <= i < |forest| ==> nodes[i] == Node(forest[i], parent)
  {
    seq(|forest|, i requires 0 <= i < |forest| => Node(forest[i], parent))
  }

  function Weight(items: seq<Node>): nat
    decreases |items|
  {
    if items == [] then 0 else 1 + Size(items[0].record.children) + Weight(items[1..])
  }

  lemma {:induction false} WeightJoin(a: seq<Node>, b: seq<Node>)
    ensures Weight(a + b) == Weight(a) + Weight(b)
    decreases |a|
  {
    if a == [] { assert a + b == b; } else { assert (a + b)[1..] == a[1..] + b; WeightJoin(a[1..], b); }
  }

  lemma {:induction false} WeightUnder(forest: Forest, parent: Option<nat>)
    ensures Weight(Under(forest, parent)) == Size(forest)
    decreases |forest|
  {
    if forest != [] {
      assert Under(forest, parent)[1..] == Under(forest[1..], parent);
      WeightUnder(forest[1..], parent);
    }
  }

  /** What replaces the first item once it has been noted at `base`. */
  function Opened(items: seq<Node>, base: nat): seq<Node>
    requires items != []
  {
    Under(items[0].record.children, Some(base)) + items[1..]
  }

  lemma {:induction false} OpenedLess(items: seq<Node>, base: nat)
    requires items != []
    ensures Weight(Opened(items, base)) < Weight(items)
  {
    WeightJoin(Under(items[0].record.children, Some(base)), items[1..]);
    WeightUnder(items[0].record.children, Some(base));
  }

  /** The nodes in pre-order, each with its parent's position, from position `base` on. */
  function Laid(items: seq<Node>, base: nat): seq<Node>
    decreases Weight(items)
  {
    if items == [] then [] else
      OpenedLess(items, base);
      [items[0]] + Laid(Opened(items, base), base + 1)
  }

  // ----- building from the back

  datatype Build = Build(lists: seq<seq<Descriptor>>, roots: seq<Descriptor>)

  predicate Fitting(b: Build, parent: Option<nat>) { parent.Some? ==> parent.value < |b.lists| }

  /** Hands a finished descriptor to its parent, or to the roots. */
  function Placed(b: Build, parent: Option<nat>, d: Descriptor): Build
    requires Fitting(b, parent)
  {
    match parent
    case Some(p) => b.(lists := b.lists[p := b.lists[p] + [d]])
    case None => b.(roots := b.roots + [d])
  }

  /** One node built: its children, gathered last first, are turned round and taken. */
  function Finished(b: Build, node: Node, index: nat): Build
    requires index < |b.lists| && Fitting(b, node.parent)
  {
    Placed(b.(lists := b.lists[index := []]), node.parent,
           Descriptor(node.record.id, node.record.text, Reversed(b.lists[index])))
  }

  predicate Parented(nodes: seq<Node>) {
    forall i :: 0 <= i < |nodes| && nodes[i].parent.Some? ==> nodes[i].parent.value < |nodes|
  }

  /** The nodes from `lo` on, built from the back. */
  function Down(nodes: seq<Node>, b: Build, lo: nat): (d: Build)
    requires lo <= |nodes| == |b.lists| && Parented(nodes)
    ensures |d.lists| == |nodes|
    decreases |nodes| - lo
  {
    if lo == |nodes| then b else Finished(Down(nodes, b, lo + 1), nodes[lo], lo)
  }

  predicate AllBelow(items: seq<Node>, n: nat) {
    forall node :: node in items && node.parent.Some? ==> node.parent.value < n
  }

  /** The items' images handed to their parents, in order. */
  function Pushed(b: Build, items: seq<Node>): (p: Build)
    requires AllBelow(items, |b.lists|)
    ensures |p.lists| == |b.lists|
    decreases |items|
  {
    if items == [] then b else Pushed(Placed(b, items[0].parent, Image(items[0].record)), items[1..])
  }

  lemma {:induction false} PushedJoin(b: Build, x: seq<Node>, y: seq<Node>)
    requires AllBelow(x, |b.lists|) && AllBelow(y, |b.lists|)
    ensures Pushed(b, x + y) == Pushed(Pushed(b, x), y)
    decreases |x|
  {
    if x == [] {
      assert x + y == y;
    } else {
      assert (x + y)[0] == x[0] && (x + y)[1..] == x[1..] + y;
      PushedJoin(Placed(b, x[0].parent, Image(x[0].record)), x[1..], y);
    }
  }

  /** Items whose parents come before `base` leave the lists from `base` on alone. */
  lemma {:induction false} PushedBelow(b: Build, items: seq<Node>, base: nat)
    requires base <= |b.lists|
    requires AllBelow(items, base)
    ensures forall k :: base <= k < |b.lists| ==> Pushed(b, items).lists[k] == b.lists[k]
    decreases |items|
  {
    if items != [] { PushedBelow(Placed(b, items[0].parent, Image(items[0].record)), items[1..], base); }
  }

  lemma {:induction false} ImagesJoin(a: Forest, b: Forest)
    ensures Images(a + b) == Images(a) + Images(b)
    decreases |a|
  {
    if a == [] { assert a + b == b; } else { assert (a + b)[1..] == a[1..] + b; ImagesJoin(a[1..], b); }
  }

  /** One effect's children, handed over last first, gather into its list. */
  lemma {:induction false} PushedChildren(b: Build, children: Forest, base: nat)
    requires base < |b.lists|
    ensures Pushed(b, Reversed(Under(children, Some(base)))) ==
              b.(lists := b.lists[base := b.lists[base] + Reversed(Images(children))])
    decreases |children|
  {
    if children == [] {
      assert b.lists[base] + Reversed(Images(children)) == b.lists[base];
      assert b.lists[base := b.lists[base]] == b.lists;
    } else {
      var n := |children| - 1;
      UnderReversed(children, Some(base));
      var next := Placed(b, Some(base), Image(children[n]));
      PushedChildren(next, children[..n], base);
      ImagesReversed(children);
      assert next.lists[base] + Reversed(Images(children[..n])) == b.lists[base] + Reversed(Images(children));
      assert next.lists[base := b.lists[base] + Reversed(Images(children))] ==
               b.lists[base := b.lists[base] + Reversed(Images(children))];
    }
  }

  lemma {:induction false} UnderReversed(children: Forest, parent: Option<nat>)
    requires children != []
    ensures var all := Reversed(Under(children, parent));
            all != [] && all[0] == Node(children[|children| - 1], parent)
            && all[1..] == Reversed(Under(children[..|children| - 1], parent))
  {
    assert Under(children, parent)[..|children| - 1] == Under(children[..|children| - 1], parent);
  }

  lemma {:induction false} ImagesReversed(forest: Forest)
    requires forest != []
    ensures Reversed(Images(forest)) == [Image(forest[|forest| - 1])] + Reversed(Images(forest[..|forest| - 1]))
  {
    var n := |forest| - 1;
    assert forest == forest[..n] + [forest[n]] && [forest[n]][1..] == [];
    ImagesJoin(forest[..n], [forest[n]]);
    ReversedJoin(Images(forest[..n]), Images([forest[n]]));
    assert Images([forest[n]]) == [Image(forest[n])];
  }

  /** Building a laid-out stretch from the back hands over its items' images, last first. */
  lemma {:induction false} DownIsPushed(nodes: seq<Node>, b: Build, items: seq<Node>, base: nat)
    requires base <= |nodes| == |b.lists| && Parented(nodes) && nodes[base..] == Laid(items, base)
    requires forall k :: base <= k < |nodes| ==> b.lists[k] == []
    requires AllBelow(items, base)
    ensures Down(nodes, b, base) == Pushed(b, Reversed(items))
    decreases Weight(items)
  {
    if items == [] {
      assert base == |nodes|;
    } else {
      OpenedLess(items, base);
      assert nodes[base] == items[0] && nodes[base + 1..] == Laid(Opened(items, base), base + 1);
      DownIsPushed(nodes, b, Opened(items, base), base + 1);
      TailPushed(b, items, base);
      HeadPushed(b, items, base);
      assert AllBelow([items[0]], base);
    }
  }

  /** What follows an item gathers its children in its own list, the rest where their parents are. */
  lemma {:induction false} TailPushed(b: Build, items: seq<Node>, base: nat)
    requires items != [] && base < |b.lists| && b.lists[base] == [] && AllBelow(items, base)
    ensures AllBelow(items[1..], base) && AllBelow(Reversed(items[1..]), |b.lists|)
    ensures AllBelow(Reversed(Opened(items, base)), |b.lists|)
    ensures var before := Pushed(b, Reversed(items[1..]));
            Pushed(b, Reversed(Opened(items, base))) ==
              before.(lists := before.lists[base := Reversed(Images(items[0].record.children))])
    ensures Pushed(b, Reversed(items[1..])).lists[base] == []
  {
    var children := items[0].record.children;
    var under := Under(children, Some(base));
    ReversedJoin(under, items[1..]);
    PushedJoin(b, Reversed(items[1..]), Reversed(under));
    PushedBelow(b, Reversed(items[1..]), base);
    PushedChildren(Pushed(b, Reversed(items[1..])), children, base);
    assert [] + Reversed(Images(children)) == Reversed(Images(children));
  }

  /** And the item itself is handed over last. */
  lemma {:induction false} HeadPushed(b: Build, items: seq<Node>, base: nat)
    requires items != [] && base < |b.lists| && AllBelow(items, base)
    requires Pushed(b, Reversed(items[1..])).lists[base] == []
    ensures var before := Pushed(b, Reversed(items[1..]));
            var gathered := before.(lists := before.lists[base := Reversed(Images(items[0].record.children))]);
            && Fitting(gathered, items[0].parent)
            && Finished(gathered, items[0], base) == Pushed(b, Reversed(items))
  {
    var before := Pushed(b, Reversed(items[1..]));
    var gathered := before.(lists := before.lists[base := Reversed(Images(items[0].record.children))]);
    ReversedTwice(Images(items[0].record.children));
    assert gathered.lists[base := []] == before.lists;
    ReversedJoin([items[0]], items[1..]);
    assert items == [items[0]] + items[1..] && Reversed([items[0]]) == [items[0]];
    PushedJoin(b, Reversed(items[1..]), [items[0]]);
    assert [items[0]][1..] == [];
  }

  lemma {:induction false} PushedRoots(b: Build, forest: Forest)
    ensures Pushed(b, Reversed(Under(forest, None))) == b.(roots := b.roots + Reversed(Images(forest)))
    decreases |forest|
  {
    if forest != [] {
      var n := |forest| - 1;
      UnderReversed(forest, None);
      var next := Placed(b, None, Image(forest[n]));
      PushedRoots(next, forest[..n]);
      ImagesReversed(forest);
      assert next.roots + Reversed(Images(forest[..n])) == b.roots + Reversed(Images(forest));
    }
  }

  lemma {:induction false} LaidParented(items: seq<Node>, base: nat)
    requires AllBelow(items, base)
    ensures |Laid(items, base)| == Weight(items)
    ensures forall i :: 0 <= i < |Laid(items, base)| && Laid(items, base)[i].parent.Some? ==>
              Laid(items, base)[i].parent.value < base + i
    decreases Weight(items)
  {
    if items != [] {
      OpenedLess(items, base);
      LaidParented(Opened(items, base), base + 1);
      WeightJoin(Under(items[0].record.children, Some(base)), items[1..]);
      WeightUnder(items[0].record.children, Some(base));
    }
  }

  /** Publishes a forest as descriptors, in registration order. */
  method Describe(roots: Forest) returns (images: seq<Descriptor>)
    ensures images == Images(roots)
  {
    hide Laid, Weight, Reversed, Images, Down, Size, Pushed;
    var nodes := LayOut(roots);
    var b := Build(seq(|nodes|, i => []), []);
    ghost var start := b;
    DownNothing(nodes, b);
    var index := |nodes|;
    while index > 0
      invariant 0 <= index <= |nodes| == |b.lists| && Parented(nodes) && b == Down(nodes, start, index)
    {
      index := index - 1;
      DownMore(nodes, start, index);
      var node := nodes[index];
      var children := Reversed(b.lists[index]);
      b := b.(lists := b.lists[index := []]);
      var descriptor := Descriptor(node.record.id, node.record.text, children);
      b := Placed(b, node.parent, descriptor);
    }
    DownIsPushed(nodes, start, Under(roots, None), 0);
    assert nodes[0..] == nodes;
    PushedRoots(start, roots);
    ReversedTwice(Images(roots));
    assert [] + Reversed(Images(roots)) == Reversed(Images(roots));
    images := Reversed(b.roots);
  }

  lemma {:induction false} DownNothing(nodes: seq<Node>, b: Build)
    requires |nodes| == |b.lists| && Parented(nodes)
    ensures Down(nodes, b, |nodes|) == b
  {}

  lemma {:induction false} DownMore(nodes: seq<Node>, b: Build, lo: nat)
    requires lo < |nodes| == |b.lists| && Parented(nodes)
    ensures Down(nodes, b, lo) == Finished(Down(nodes, b, lo + 1), nodes[lo], lo)
  {}

  /** The first pass: every record once, each before what nested under it. */
  method LayOut(roots: Forest) returns (nodes: seq<Node>)
    ensures nodes == Laid(Under(roots, None), 0) && Parented(nodes)
  {
    hide Weight, Reversed, Size, Laid;
    nodes := [];
    ghost var items := Under(roots, None);
    var stack := Reversed(Under(roots, None));
    LaidParented(items, 0);
    while stack != []
      invariant stack == Reversed(items) && |stack| == |items|
      invariant nodes + Laid(items, |nodes|) == Laid(Under(roots, None), 0)
      decreases Weight(items)
    {
      LaidPop(items, |nodes|);
      var node := stack[|stack| - 1];
      stack := stack[..|stack| - 1];
      stack := stack + Reversed(Under(node.record.children, Some(|nodes|)));
      items := Opened(items, |nodes|);
      nodes := nodes + [node];
    }
    assert items == [];
    LaidNothing(|nodes|);
  }

  lemma {:induction false} LaidNothing(base: nat)
    ensures Laid([], base) == []
  {}

  lemma {:induction false} LaidPop(items: seq<Node>, base: nat)
    requires items != []
    ensures Reversed(items)[|items| - 1] == items[0] && |Reversed(items)| == |items|
    ensures Reversed(Opened(items, base)) == Reversed(items)[..|items| - 1]
            + Reversed(Under(items[0].record.children, Some(base)))
    ensures |Reversed(Opened(items, base))| == |Opened(items, base)|
    ensures Laid(items, base) == [items[0]] + Laid(Opened(items, base), base + 1)
    ensures Weight(Opened(items, base)) < Weight(items)
  {
    ReversedJoin(Under(items[0].record.children, Some(base)), items[1..]);
    ReversedButFirst(items);
    OpenedLess(items, base);
  }
}
