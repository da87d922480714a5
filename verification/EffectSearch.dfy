// Finding a live effect by identity, nesting one under it, and taking it out
// with its whole subtree.

module EffectSearch {
  import opened Profiles
  import opened EffectTree

  /** A way down the forest: a position at each level. */
  type Path = seq<nat>

  predicate Leads(forest: Forest, path: Path)
    decreases |path|
  {
    path == [] || (path[0] < |forest| && Leads(forest[path[0]].children, path[1..]))
  }

  /** The siblings a path leads to. */
  function At(forest: Forest, path: Path): Forest
    requires Leads(forest, path)
    decreases |path|
  {
    if path == [] then forest else At(forest[path[0]].children, path[1..])
  }

  lemma {:induction false} LeadsOn(forest: Forest, path: Path, i: nat)
    requires Leads(forest, path) && i < |At(forest, path)|
    ensures Leads(forest, path + [i]) && At(forest, path + [i]) == At(forest, path)[i].children
    decreases |path|
  {
    if path == [] {
      assert ([] + [i])[1..] == [];
    } else {
      assert (path + [i])[1..] == path[1..] + [i];
      LeadsOn(forest[path[0]].children, path[1..], i);
    }
  }

  /** The forest with one record of a level replaced by others, or by none. */
  function Spliced(forest: Forest, path: Path, index: nat, others: Forest): Forest
    requires Leads(forest, path) && index < |At(forest, path)|
    decreases |path|
  {
    if path == [] then forest[..index] + others + forest[index + 1..]
    else forest[path[0] := forest[path[0]].(children := Spliced(forest[path[0]].children, path[1..], index, others))]
  }

  lemma {:induction false} TeardownOne(record: Record)
    ensures Teardown([record]) == Teardown(record.children) + [Bare(record)]
  {
    assert [record][..0] == [];
  }

  lemma {:induction false} TeardownAround(forest: Forest, index: nat)
    requires index < |forest|
    ensures Teardown(forest) == Teardown(forest[index + 1..]) + Teardown([forest[index]]) + Teardown(forest[..index])
  {
    assert forest == forest[..index] + [forest[index]] + forest[index + 1..];
    TeardownJoin(forest[..index] + [forest[index]], forest[index + 1..]);
    TeardownJoin(forest[..index], [forest[index]]);
  }

  /** A record's teardown is one contiguous stretch of the forest's, and splicing replaces just that stretch. */
  lemma {:induction false} SplicedTeardown(forest: Forest, path: Path, index: nat, others: Forest)
      returns (a: seq<Record>, b: seq<Record>)
    requires Leads(forest, path) && index < |At(forest, path)|
    ensures Teardown(forest) == a + Teardown([At(forest, path)[index]]) + b
    ensures Teardown(Spliced(forest, path, index, others)) == a + Teardown(others) + b
    decreases |path|
  {
    hide Teardown;
    if path == [] {
      a, b := Teardown(forest[index + 1..]), Teardown(forest[..index]);
      TeardownAround(forest, index);
      TeardownJoin(forest[..index] + others, forest[index + 1..]);
      TeardownJoin(forest[..index], others);
    } else {
      var at := path[0];
      var parent := forest[at];
      var inner := Spliced(parent.children, path[1..], index, others);
      var x, y := SplicedTeardown(parent.children, path[1..], index, others);
      a, b := Teardown(forest[at + 1..]) + x, y + [Bare(parent)] + Teardown(forest[..at]);
      var next := forest[at := parent.(children := inner)];
      assert next[..at] == forest[..at] && next[at + 1..] == forest[at + 1..];
      TeardownAround(forest, at);
      TeardownAround(next, at);
      TeardownOne(parent);
      TeardownOne(next[at]);
      Stretches(Teardown(forest[at + 1..]), x, Teardown([At(forest, path)[index]]), y, [Bare(parent)],
                Teardown(forest[..at]));
      Stretches(Teardown(forest[at + 1..]), x, Teardown(others), y, [Bare(parent)], Teardown(forest[..at]));
    }
  }

  lemma Stretches(p: seq<Record>, x: seq<Record>, s: seq<Record>, y: seq<Record>, q: seq<Record>, r: seq<Record>)
    ensures p + (x + s + y + q) + r == (p + x) + s + (y + q + r)
  {}

  // ----- identities

  function Ids(forest: Forest): set<EffectId> {
    if forest == [] then {} else {forest[0].id} + Ids(forest[0].children) + Ids(forest[1..])
  }

  lemma {:induction false} IdsAt(forest: Forest, id: EffectId)
    ensures id in Ids(forest) <==>
              exists i :: 0 <= i < |forest| && (forest[i].id == id || id in Ids(forest[i].children))
    decreases |forest|
  {
    if forest != [] {
      IdsAt(forest[1..], id);
      if id in Ids(forest[1..]) {
        var i :| 0 <= i < |forest[1..]| && (forest[1..][i].id == id || id in Ids(forest[1..][i].children));
        assert forest[i + 1] == forest[1..][i];
      }
      if i :| 0 <= i < |forest| && (forest[i].id == id || id in Ids(forest[i].children)) {
        if i > 0 { assert forest[1..][i - 1] == forest[i]; }
      }
    }
  }

  /** The work left in a stack of levels. */
  function Load(forest: Forest, stack: seq<Path>): nat
    requires forall path :: path in stack ==> Leads(forest, path)
    decreases |stack|
  {
    if stack == [] then 0 else Load(forest, stack[..|stack| - 1]) + 1 + Size(At(forest, stack[|stack| - 1]))
  }

  lemma {:induction false} SizeTake(forest: Forest, n: nat)
    requires n < |forest|
    ensures Size(forest[..n + 1]) == Size(forest[..n]) + 1 + Size(forest[n].children)
  {
    assert forest[..n + 1] == forest[..n] + [forest[n]];
    SizeJoin(forest[..n], [forest[n]]);
    assert [forest[n]][1..] == [];
  }

  /** Some level of the stack holds the effect. */
  predicate Pending(forest: Forest, stack: seq<Path>, id: EffectId)
    requires forall path :: path in stack ==> Leads(forest, path)
  {
    exists k :: 0 <= k < |stack| && id in Ids(At(forest, stack[k]))
  }

  lemma PendingMore(forest: Forest, stack: seq<Path>, path: Path, id: EffectId)
    requires Leads(forest, path) && forall p :: p in stack ==> Leads(forest, p)
    ensures forall p :: p in stack + [path] ==> Leads(forest, p)
    ensures Pending(forest, stack + [path], id) <==> Pending(forest, stack, id) || id in Ids(At(forest, path))
    ensures Load(forest, stack + [path]) == Load(forest, stack) + 1 + Size(At(forest, path))
  {
    var more := stack + [path];
    assert more[..|stack|] == stack && more[|stack|] == path;
    if k :| 0 <= k < |stack| && id in Ids(At(forest, stack[k])) { assert more[k] == stack[k]; }
  }

  /** Pushes the children of a level that does not itself hold the effect. */
  method PushChildren(roots: Forest, stack: seq<Path>, path: Path, id: EffectId) returns (more: seq<Path>)
    requires Leads(roots, path) && forall p :: p in stack ==> Leads(roots, p)
    requires forall i :: 0 <= i < |At(roots, path)| ==> At(roots, path)[i].id != id
    ensures forall p :: p in more ==> Leads(roots, p)
    ensures Pending(roots, more, id) <==> Pending(roots, stack, id) || id in Ids(At(roots, path))
    ensures Load(roots, more) == Load(roots, stack) + Size(At(roots, path))
  {
    hide Pending, Load;
    var level := At(roots, path);
    more := stack;
    for i := 0 to |level|
      invariant forall p :: p in more ==> Leads(roots, p)
      invariant Pending(roots, more, id) <==>
                  Pending(roots, stack, id) || exists j :: 0 <= j < i && id in Ids(level[j].children)
      invariant Load(roots, more) == Load(roots, stack) + Size(level[..i])
    {
      LeadsOn(roots, path, i);
      PendingMore(roots, more, path + [i], id);
      SizeTake(level, i);
      more := more + [path + [i]];
    }
    assert level[..|level|] == level;
    IdsAt(level, id);
  }

  /** Where a live effect is, level by level. */
  method Locate(roots: Forest, id: EffectId) returns (found: bool, path: Path, index: nat)
    ensures found <==> id in Ids(roots)
    ensures found ==> Leads(roots, path) && index < |At(roots, path)| && At(roots, path)[index].id == id
  {
    hide Pending, Load;
    var stack: seq<Path> := [[]];
    PendingNone(roots, id);
    PendingMore(roots, [], [], id);
    assert [] + [[]] == stack;
    path, index := [], 0;
    while stack != []
      invariant forall p :: p in stack ==> Leads(roots, p)
      invariant id in Ids(roots) <==> Pending(roots, stack, id)
      decreases Load(roots, stack)
    {
      var top := |stack| - 1;
      path := stack[top];
      assert path in stack && stack == stack[..top] + [path];
      PendingMore(roots, stack[..top], path, id);
      var level := At(roots, path);
      index := 0;
      while index < |level| && level[index].id != id
        invariant 0 <= index <= |level| && forall i :: 0 <= i < index ==> level[i].id != id
      {
        index := index + 1;
      }
      if index < |level| {
        IdsAt(level, id);
        return true, path, index;
      }
      stack := PushChildren(roots, stack[..top], path, id);
    }
    PendingNone(roots, id);
    found := false;
  }

  lemma PendingNone(roots: Forest, id: EffectId)
    ensures !Pending(roots, [], id)
  {}

  /** Takes one live effect out with its whole subtree: one stretch of the teardown goes, the rest keeps its order. */
  method Take(roots: Forest, id: EffectId)
      returns (taken: Option<Record>, rest: Forest, ghost a: seq<Record>, ghost b: seq<Record>)
    ensures taken.Some? <==> id in Ids(roots)
    ensures taken.None? ==> rest == roots
    ensures taken.Some? ==> taken.value.id == id && Teardown(roots) == a + Teardown([taken.value]) + b
                            && Teardown(rest) == a + b
  {
    var found, path, index := Locate(roots, id);
    a, b := [], [];
    if !found { return None, roots, a, b; }
    a, b := SplicedTeardown(roots, path, index, []);
    taken, rest := Some(At(roots, path)[index]), Spliced(roots, path, index, []);
    assert a + [] + b == a + b;
  }

  /** Nests a new childless record last under a live effect: it is torn down just ahead of that effect's own stretch. */
  method Nest(roots: Forest, parent: EffectId, record: Record)
      returns (nested: bool, rest: Forest, ghost a: seq<Record>, ghost own: seq<Record>, ghost b: seq<Record>)
    requires record.children == []
    ensures nested <==> parent in Ids(roots)
    ensures !nested ==> rest == roots
    ensures nested ==> && own != [] && own[|own| - 1].id == parent && own[|own| - 1].children == []
                       && Teardown(roots) == a + own + b && Teardown(rest) == a + [record] + own + b
  {
    var found, path, index := Locate(roots, parent);
    a, own, b := [], [], [];
    if !found { return false, roots, a, own, b; }
    var over := At(roots, path)[index];
    var more := over.(children := over.children + [record]);
    a, b := SplicedTeardown(roots, path, index, [more]);
    own := Teardown([over]);
    TeardownOne(over);
    TeardownOne(more);
    TeardownJoin(over.children, [record]);
    TeardownOne(record);
    assert Bare(record) == record && Teardown(record.children) == [];
    assert Teardown([more]) == [record] + own;
    assert a + ([record] + own) + b == a + [record] + own + b;
    nested, rest := true, Spliced(roots, path, index, [more]);
  }
}
