// The strongly-connected-component walk over the dependency graph, with its
// depth-first frames explicit: each turn of the loop enters a node, crosses an
// edge to one already reached, pops a finished component, or folds a finished
// node into the frame below it. And the invariant that makes the walk exact.

module Tarjan {
  import opened Graph

  /** The order of a node the walk has not reached: `usize::MAX`. */
  const UNSEEN: nat := 0xFFFF_FFFF_FFFF_FFFF

  /** One frame of the walk: a node and the index of its next child. */
  datatype Frame = Frame(node: nat, child: nat)

  /**
   * What the walk knows between two frame visits.
   *
   * `frames` holds the entered frames only, `child` counting the edges already
   * followed. `at[v]` is where a live node sits on the stack, `pos[i]` where
   * frame `i` sits, and `wit[i]` where the node sits that gave frame `i` its
   * low link.
   */
  datatype Walk = Walk(
    order: seq<nat>, low: seq<nat>, onStack: seq<bool>, stack: seq<nat>, at: seq<nat>,
    frames: seq<Frame>, pos: seq<nat>, wit: seq<nat>, next: nat, members: seq<nat>)
  {
    ghost predicate Seen(v: nat) { v < |order| && order[v] != UNSEEN }

    ghost predicate Live(v: nat) { v < |onStack| && onStack[v] }

    ghost predicate Done(v: nat) { Seen(v) && !Live(v) }

    ghost predicate Shape(n: nat) {
      && |order| == |low| == |onStack| == |at| == n
      && (forall v: nat :: Live(v) ==> Seen(v) && at[v] < |stack| && stack[at[v]] == v)
      && (forall q :: 0 <= q < |stack| ==> Live(stack[q]) && at[stack[q]] == q)
    }

    /** Orders are handed out in sequence, so they rise along the stack. */
    ghost predicate Ranked(n: nat)
      requires Shape(n)
    {
      && (forall v: nat :: Seen(v) ==> order[v] < next)
      && (forall q, r :: 0 <= q < r < |stack| ==> order[stack[q]] < order[stack[r]])
    }

    ghost predicate Framed(edges: Edges)
      requires Shape(|edges|)
    {
      && |pos| == |frames| == |wit|
      && (frames == [] ==> stack == [])
      && (frames != [] ==> pos[0] == 0)
      && (forall i :: 0 <= i < |pos| - 1 ==> pos[i] < pos[i + 1])
      && (forall i :: 0 <= i < |frames| ==>
            && wit[i] <= pos[i] < |stack|
            && stack[pos[i]] == frames[i].node
            && frames[i].child <= |edges[frames[i].node]|)
    }

    /** Stack position `q` belongs to frame `i`. */
    ghost predicate Owns(i: nat, q: nat)
    {
      i < |pos| && pos[i] <= q < |stack| && (i + 1 < |pos| ==> q < pos[i + 1])
    }

    /** A finished node only points at finished nodes. */
    ghost predicate Settled(edges: Edges)
      requires Shape(|edges|)
    {
      forall v: nat, w :: Done(v) && w in edges[v] ==> Done(w)
    }

    /** Edge `k` of the node at position `q`, which frame `i` owns, was followed. */
    ghost predicate Followed(edges: Edges, i: nat, q: nat, k: nat)
      requires Shape(|edges|) && Framed(edges)
    {
      && Owns(i, q)
      && k < |edges[stack[q]]|
      && (q == pos[i] ==> k < frames[i].child)
    }

    /** `u` was reached, and is not live below the witness of frame `i`. */
    ghost predicate Covered(i: nat, u: nat)
      requires i < |wit| && |at| == |onStack|
    {
      Seen(u) && (Live(u) ==> wit[i] <= at[u])
    }

    ghost predicate Explored(edges: Edges)
      requires Shape(|edges|) && Framed(edges)
    {
      forall i: nat, q: nat, k: nat :: Followed(edges, i, q, k) ==> Covered(i, edges[stack[q]][k])
    }

    ghost predicate Together(edges: Edges, i: nat, q: nat)
      requires Shape(|edges|) && i < |frames| && q < |stack|
    {
      Reaches(edges, frames[i].node, stack[q]) && Reaches(edges, stack[q], frames[i].node)
    }

    /** Every node a frame owns is mutually reachable with the frame. */
    ghost predicate Mutual(edges: Edges)
      requires Shape(|edges|) && Framed(edges)
    {
      && (forall i: nat, q: nat :: Owns(i, q) ==> Together(edges, i, q))
      && (forall i :: 0 <= i < |frames| - 1 ==> Reaches(edges, frames[i].node, frames[i + 1].node))
    }

    /** A low link names a live node the frame really reaches. */
    ghost predicate Linked(edges: Edges)
      requires Shape(|edges|) && Framed(edges)
    {
      forall i :: 0 <= i < |frames| ==>
        && low[frames[i].node] == order[stack[wit[i]]]
        && Reaches(edges, frames[i].node, stack[wit[i]])
    }

    ghost predicate Collected(edges: Edges)
      requires Shape(|edges|)
    {
      && (forall q, r :: 0 <= q < r < |members| ==> members[q] != members[r])
      && (forall v: nat :: v in members <==> Done(v) && OnCycle(edges, v))
    }

    ghost predicate Valid(edges: Edges) {
      && WellFormed(edges)
      && Shape(|edges|)
      && Ranked(|edges|)
      && Framed(edges)
      && Settled(edges)
      && Explored(edges)
      && Mutual(edges)
      && Linked(edges)
      && Collected(edges)
    }
  }

  /** The parent frame counts the edge that led to a newly entered child. */
  function Advance(frames: seq<Frame>): seq<Frame>
    requires frames != []
  {
    var top := frames[|frames| - 1];
    frames[|frames| - 1 := Frame(top.node, top.child + 1)]
  }

  function Entered(w: Walk, node: nat): Walk
    requires node < |w.order| == |w.low| == |w.onStack| == |w.at|
  {
    w.(order := w.order[node := w.next],
       low := w.low[node := w.next],
       onStack := w.onStack[node := true],
       stack := w.stack + [node],
       at := w.at[node := |w.stack|],
       frames := (if w.frames == [] then [] else Advance(w.frames)) + [Frame(node, 0)],
       pos := w.pos + [|w.stack|],
       wit := w.wit + [|w.stack|],
       next := w.next + 1)
  }

  /** The walk may enter `node`: unseen, and where the top frame's next edge leads. */
  ghost predicate CanEnter(edges: Edges, w: Walk, node: nat) {
    && w.Shape(|edges|) && w.Framed(edges)
    && node < |edges| && !w.Seen(node) && w.next < UNSEEN
    && (w.frames != [] ==>
          var top := w.frames[|w.frames| - 1];
          top.child < |edges[top.node]| && edges[top.node][top.child] == node)
  }

  lemma EnterShape(edges: Edges, w: Walk, node: nat)
    requires CanEnter(edges, w, node)
    ensures Entered(w, node).Shape(|edges|) && Entered(w, node).Framed(edges)
  {
    hide Walk.Framed;
    var x := Entered(w, node);
    forall v: nat | x.Live(v)
      ensures x.Seen(v) && x.at[v] < |x.stack| && x.stack[x.at[v]] == v
    {
      assert v == node || w.Live(v);
    }
    forall q | 0 <= q < |x.stack|
      ensures x.Live(x.stack[q]) && x.at[x.stack[q]] == q
    {
      assert q < |w.stack| ==> w.Live(w.stack[q]);
    }
    EnterFramed(edges, w, node);
  }

  lemma EnterFramed(edges: Edges, w: Walk, node: nat)
    requires CanEnter(edges, w, node) && Entered(w, node).Shape(|edges|)
    ensures Entered(w, node).Framed(edges)
  {
    hide Walk.Shape, Entered;
    EnterFrames(edges, w, node);
  }

  lemma EnterRanked(edges: Edges, w: Walk, node: nat)
    requires CanEnter(edges, w, node) && Entered(w, node).Shape(|edges|)
    requires w.Ranked(|edges|)
    ensures Entered(w, node).Ranked(|edges|)
    ensures forall v: nat :: Entered(w, node).Done(v) <==> w.Done(v)
  {
    var x := Entered(w, node);
    forall q | 0 <= q < |w.stack|
      ensures x.order[x.stack[q]] == w.order[w.stack[q]] < w.next
    {
      assert w.Live(w.stack[q]) && w.Seen(w.stack[q]);
    }
    forall v: nat ensures x.Done(v) <==> w.Done(v) {
      if v == node { assert x.Live(v); }
    }
  }

  /** What an earlier frame owned it still owns, and the new frame owns its own node. */
  lemma EnterOwns(edges: Edges, w: Walk, node: nat, i: nat, q: nat)
    requires CanEnter(edges, w, node) && Entered(w, node).Owns(i, q)
    ensures if i < |w.frames| then w.Owns(i, q) && w.stack[q] == Entered(w, node).stack[q]
            else i == |w.frames| && q == |w.stack| && Entered(w, node).stack[q] == node
  {
    var x := Entered(w, node);
    if i < |w.frames| {
      assert x.pos[i] == w.pos[i];
      if i + 1 < |w.frames| { assert x.pos[i + 1] == w.pos[i + 1]; } else { assert x.pos[i + 1] == |w.stack|; }
    }
  }

  lemma {:induction false} EnterMutual(edges: Edges, w: Walk, node: nat)
    requires CanEnter(edges, w, node) && Entered(w, node).Shape(|edges|) && Entered(w, node).Framed(edges)
    requires WellFormed(edges) && w.Mutual(edges)
    ensures Entered(w, node).Mutual(edges)
  {
    var x := Entered(w, node);
    var n := |w.frames|;
    ReachesSelf(edges, node);
    if n > 0 { ReachesStep(edges, w.frames[n - 1].node, node); }
    forall i: nat, q: nat | x.Owns(i, q)
      ensures x.Together(edges, i, q)
    {
      EnterOwns(edges, w, node, i, q);
      if i < n { assert w.Together(edges, i, q); }
    }
  }

  lemma EnterLinked(edges: Edges, w: Walk, node: nat)
    requires CanEnter(edges, w, node) && Entered(w, node).Shape(|edges|) && Entered(w, node).Framed(edges)
    requires w.Linked(edges)
    ensures Entered(w, node).Linked(edges)
  {
    var x := Entered(w, node);
    ReachesSelf(edges, node);
    forall i | 0 <= i < |w.frames|
      ensures x.low[x.frames[i].node] == x.order[x.stack[x.wit[i]]]
      ensures Reaches(edges, x.frames[i].node, x.stack[x.wit[i]])
    {
      assert w.Live(w.stack[w.pos[i]]) && w.Live(w.stack[w.wit[i]]);
      assert x.frames[i].node == w.frames[i].node;
    }
  }

  lemma {:induction false} EnterExplored(edges: Edges, w: Walk, node: nat)
    requires CanEnter(edges, w, node) && Entered(w, node).Shape(|edges|) && Entered(w, node).Framed(edges)
    requires w.Explored(edges)
    ensures Entered(w, node).Explored(edges)
  {
    var x := Entered(w, node);
    forall i: nat, q: nat, k: nat | x.Followed(edges, i, q, k)
      ensures x.Covered(i, edges[x.stack[q]][k])
    {
      EnterFollowed(edges, w, node, i, q, k);
      EnterCovered(w, node, i, edges[w.stack[q]][k]);
    }
  }

  /** The frames after entering: the top one has counted its edge, and the new one has followed none. */
  lemma EnterFrames(edges: Edges, w: Walk, node: nat)
    requires CanEnter(edges, w, node)
    ensures var x := Entered(w, node); var n := |w.frames|;
            && |x.frames| == n + 1 && x.pos == w.pos + [|w.stack|] && x.wit == w.wit + [|w.stack|]
               && x.stack == w.stack + [node]
            && x.frames[n] == Frame(node, 0) && |w.pos| == |w.wit| == n
            && (forall i :: 0 <= i < n - 1 ==> x.frames[i] == w.frames[i])
            && (n > 0 ==> x.frames[n - 1] == Frame(w.frames[n - 1].node, w.frames[n - 1].child + 1))
            && (n > 0 ==> w.pos[n - 1] < |w.stack| && w.stack[w.pos[n - 1]] == w.frames[n - 1].node)
  {}

  /** An edge followed after entering was followed before, or is the one that led to the entered node. */
  lemma EnterFollowed(edges: Edges, w: Walk, node: nat, i: nat, q: nat, k: nat)
    requires CanEnter(edges, w, node) && Entered(w, node).Shape(|edges|) && Entered(w, node).Framed(edges)
    requires Entered(w, node).Followed(edges, i, q, k)
    ensures i < |w.frames| && q < |w.stack| && Entered(w, node).stack[q] == w.stack[q]
    ensures w.Followed(edges, i, q, k) || edges[w.stack[q]][k] == node
  {
    hide Walk.Shape, Walk.Framed, Entered;
    EnterOwns(edges, w, node, i, q);
    EnterFrames(edges, w, node);
  }

  lemma EnterCovered(w: Walk, node: nat, i: nat, u: nat)
    requires node < |w.order| == |w.low| == |w.onStack| == |w.at| && i < |w.frames| == |w.wit| && w.next < UNSEEN
    requires (w.Covered(i, u) || u == node) && w.wit[i] <= |w.stack|
    ensures Entered(w, node).Covered(i, u)
  {}

  lemma {:induction false} EnterKeeps(edges: Edges, w: Walk, node: nat)
    requires CanEnter(edges, w, node) && w.Valid(edges)
    ensures Entered(w, node).Valid(edges)
  {
    EnterShape(edges, w, node);
    EnterRanked(edges, w, node);
    EnterMutual(edges, w, node);
    EnterLinked(edges, w, node);
    EnterExplored(edges, w, node);
    var x := Entered(w, node);
    forall v: nat, u | x.Done(v) && u in edges[v] ensures x.Done(u) { assert w.Done(u); }
  }

  // ----- an edge to a node already seen

  function Min(a: nat, b: nat): nat { if a <= b then a else b }

  /** The walk follows the top frame's next edge to `target`, which it has seen. */
  function Crossed(w: Walk, target: nat): Walk
    requires |w.frames| > 0 && |w.wit| == |w.frames|
    requires target < |w.order| == |w.low| == |w.onStack| == |w.at|
    requires w.frames[|w.frames| - 1].node < |w.low|
  {
    var t := |w.frames| - 1;
    var node := w.frames[t].node;
    var x := w.(frames := Advance(w.frames));
    if !w.onStack[target] then x else
      x.(low := w.low[node := Min(w.low[node], w.order[target])],
         wit := w.wit[t := Min(w.wit[t], w.at[target])])
  }

  ghost predicate CanCross(edges: Edges, w: Walk, target: nat) {
    && WellFormed(edges) && w.Shape(|edges|) && w.Framed(edges)
    && w.frames != []
    && target < |edges| && w.Seen(target)
    && var top := w.frames[|w.frames| - 1];
       top.child < |edges[top.node]| && edges[top.node][top.child] == target
  }

  lemma PosRises(edges: Edges, w: Walk, i: nat, j: nat)
    requires w.Shape(|edges|) && w.Framed(edges)
    requires i < j < |w.pos|
    ensures w.pos[i] < w.pos[j] && w.frames[i].node != w.frames[j].node
  {
    var k := i + 1;
    while k < j
      invariant i < k <= j && w.pos[i] < w.pos[k]
    {
      k := k + 1;
    }
    assert w.at[w.stack[w.pos[i]]] == w.pos[i] && w.at[w.stack[w.pos[j]]] == w.pos[j];
  }

  /** The lesser order of two live nodes is the order of the one lower on the stack. */
  lemma LesserOrder(n: nat, w: Walk, q: nat, r: nat)
    requires w.Shape(n) && w.Ranked(n) && q < |w.stack| && r < |w.stack|
    ensures Min(w.order[w.stack[q]], w.order[w.stack[r]]) == w.order[w.stack[Min(q, r)]]
    ensures w.order[w.stack[q]] == w.order[w.stack[r]] <==> q == r
  {
    if q < r { assert w.order[w.stack[q]] < w.order[w.stack[r]]; }
    if r < q { assert w.order[w.stack[r]] < w.order[w.stack[q]]; }
  }

  lemma CrossShape(edges: Edges, w: Walk, target: nat)
    requires CanCross(edges, w, target)
    ensures Crossed(w, target).Shape(|edges|)
  {
    var x := Crossed(w, target);
    forall v: nat | x.Live(v) ensures x.Seen(v) && x.at[v] < |x.stack| && x.stack[x.at[v]] == v { assert w.Live(v); }
    forall q | 0 <= q < |x.stack| ensures x.Live(x.stack[q]) { assert w.Live(w.stack[q]); }
  }

  lemma CrossFramed(edges: Edges, w: Walk, target: nat)
    requires CanCross(edges, w, target)
    ensures Crossed(w, target).Shape(|edges|) && Crossed(w, target).Framed(edges)
    ensures forall i, q :: Crossed(w, target).Owns(i, q) <==> w.Owns(i, q)
    ensures forall i :: 0 <= i < |w.frames| ==> Crossed(w, target).frames[i].node == w.frames[i].node
  {
    CrossShape(edges, w, target);
    hide Walk.Shape;
    assert Crossed(w, target).pos == w.pos && Crossed(w, target).stack == w.stack;
  }

  lemma CrossLinked(edges: Edges, w: Walk, target: nat)
    requires CanCross(edges, w, target) && Crossed(w, target).Shape(|edges|) && Crossed(w, target).Framed(edges)
    requires w.Linked(edges)
    requires var t := |w.frames| - 1;
             w.Live(target) ==>
               Min(w.low[w.frames[t].node], w.order[target]) == w.order[w.stack[Min(w.wit[t], w.at[target])]]
    ensures Crossed(w, target).Linked(edges)
  {
    var x := Crossed(w, target);
    var t := |w.frames| - 1;
    var node := w.frames[t].node;
    ReachesStep(edges, node, target);
    forall i | 0 <= i < |x.frames|
      ensures x.low[x.frames[i].node] == x.order[x.stack[x.wit[i]]]
      ensures Reaches(edges, x.frames[i].node, x.stack[x.wit[i]])
    {
      if i < t { PosRises(edges, w, i, t); }
    }
  }

  lemma CrossExplored(edges: Edges, w: Walk, target: nat)
    requires CanCross(edges, w, target) && Crossed(w, target).Shape(|edges|) && Crossed(w, target).Framed(edges)
    requires w.Explored(edges)
    ensures Crossed(w, target).Explored(edges)
  {
    var x := Crossed(w, target);
    var t := |w.frames| - 1;
    forall i: nat, q: nat, k: nat | x.Followed(edges, i, q, k)
      ensures x.Covered(i, edges[x.stack[q]][k])
    {
      CrossCovered(edges, w, target, i, q, k);
    }
  }

  lemma CrossCovered(edges: Edges, w: Walk, target: nat, i: nat, q: nat, k: nat)
    requires CanCross(edges, w, target) && Crossed(w, target).Shape(|edges|) && Crossed(w, target).Framed(edges)
    requires w.Explored(edges)
    requires Crossed(w, target).Followed(edges, i, q, k)
    ensures Crossed(w, target).Covered(i, edges[w.stack[q]][k])
  {
    var t := |w.frames| - 1;
    assert w.Owns(i, q);
    if i < t || q != w.pos[t] || k < w.frames[t].child {
      assert w.Followed(edges, i, q, k) && w.Covered(i, edges[w.stack[q]][k]);
    }
  }

  lemma CrossMutual(edges: Edges, w: Walk, target: nat)
    requires CanCross(edges, w, target) && Crossed(w, target).Shape(|edges|) && Crossed(w, target).Framed(edges)
    requires w.Mutual(edges)
    ensures Crossed(w, target).Mutual(edges)
  {
    CrossFramed(edges, w, target);
    var x := Crossed(w, target);
    forall i: nat, q: nat | x.Owns(i, q)
      ensures x.Together(edges, i, q)
    {
      assert w.Owns(i, q) && w.Together(edges, i, q);
    }
  }

  lemma CrossKeeps(edges: Edges, w: Walk, target: nat)
    requires CanCross(edges, w, target) && w.Valid(edges)
    ensures Crossed(w, target).Valid(edges)
  {
    CrossFramed(edges, w, target);
    if w.Live(target) {
      LesserOrder(|edges|, w, w.wit[|w.frames| - 1], w.at[target]);
    }
    CrossLinked(edges, w, target);
    CrossExplored(edges, w, target);
    CrossMutual(edges, w, target);
    SameStack(edges, w, Crossed(w, target));
  }

  /** What does not depend on frames and low links survives a change of only those. */
  lemma SameStack(edges: Edges, w: Walk, x: Walk)
    requires w.Shape(|edges|) && w.Ranked(|edges|) && w.Settled(edges) && w.Collected(edges)
    requires |x.low| == |w.low|
    requires x == w.(low := x.low, frames := x.frames, pos := x.pos, wit := x.wit)
    ensures x.Shape(|edges|) && x.Ranked(|edges|) && x.Settled(edges) && x.Collected(edges)
  {
    assert forall v: nat :: x.Done(v) <==> w.Done(v);
  }

  // ----- a finished frame

  ghost predicate Finished(edges: Edges, w: Walk) {
    && WellFormed(edges) && w.Shape(|edges|) && w.Framed(edges)
    && w.frames != []
    && var top := w.frames[|w.frames| - 1]; top.child == |edges[top.node]|
  }

  /** Every stack position belongs to some frame. */
  lemma OwnerOf(edges: Edges, w: Walk, q: nat) returns (i: nat)
    requires w.Shape(|edges|) && w.Framed(edges) && q < |w.stack|
    ensures w.Owns(i, q)
  {
    i := |w.pos| - 1;
    while w.pos[i] > q
      invariant 0 <= i < |w.pos| && (i + 1 < |w.pos| ==> q < w.pos[i + 1])
    {
      i := i - 1;
    }
  }

  /** An earlier frame reaches every later one. */
  lemma FramesReach(edges: Edges, w: Walk, i: nat, j: nat)
    requires w.Shape(|edges|) && w.Framed(edges) && w.Mutual(edges)
    requires i <= j < |w.frames|
    ensures Reaches(edges, w.frames[i].node, w.frames[j].node)
  {
    ReachesSelf(edges, w.frames[i].node);
    var k := i;
    while k < j
      invariant i <= k <= j && Reaches(edges, w.frames[i].node, w.frames[k].node)
    {
      ReachesTrans(edges, w.frames[i].node, w.frames[k].node, w.frames[k + 1].node);
      k := k + 1;
    }
  }

  /** The finished top frame folds into its parent, which takes over its low link. */
  function Merged(w: Walk): Walk
    requires |w.frames| == |w.pos| == |w.wit| > 1
    requires w.frames[|w.frames| - 2].node < |w.low| && w.frames[|w.frames| - 1].node < |w.low|
  {
    var t := |w.frames| - 1;
    var parent := w.frames[t - 1].node;
    w.(low := w.low[parent := Min(w.low[parent], w.low[w.frames[t].node])],
       frames := w.frames[..t],
       pos := w.pos[..t],
       wit := w.wit[..t][t - 1 := Min(w.wit[t - 1], w.wit[t])])
  }

  ghost predicate CanMerge(edges: Edges, w: Walk) {
    && Finished(edges, w)
    && |w.frames| > 1
    && w.wit[|w.wit| - 1] < w.pos[|w.pos| - 1]
  }

  lemma MergeOwns(edges: Edges, w: Walk, i: nat, q: nat)
    requires CanMerge(edges, w) && Merged(w).Owns(i, q)
    ensures w.Owns(i, q) || (i == |w.frames| - 2 && w.Owns(|w.frames| - 1, q))
  {
    var t := |w.frames| - 1;
    if i + 1 < t { assert Merged(w).pos[i + 1] == w.pos[i + 1]; }
  }

  lemma MergeFramed(edges: Edges, w: Walk)
    requires CanMerge(edges, w)
    ensures Merged(w).Framed(edges)
    ensures forall i :: 0 <= i < |w.frames| - 1 ==> Merged(w).frames[i] == w.frames[i]
  {}

  lemma MergeLinked(edges: Edges, w: Walk)
    requires CanMerge(edges, w) && w.Linked(edges) && w.Mutual(edges) && Merged(w).Framed(edges)
    requires var t := |w.frames| - 1;
             Min(w.low[w.frames[t - 1].node], w.low[w.frames[t].node]) == w.order[w.stack[Min(w.wit[t - 1], w.wit[t])]]
    ensures Merged(w).Linked(edges)
  {
    var x := Merged(w);
    var t := |w.frames| - 1;
    ReachesTrans(edges, w.frames[t - 1].node, w.frames[t].node, w.stack[w.wit[t]]);
    forall i | 0 <= i < |x.frames|
      ensures x.low[x.frames[i].node] == x.order[x.stack[x.wit[i]]]
      ensures Reaches(edges, x.frames[i].node, x.stack[x.wit[i]])
    {
      if i < t - 1 { PosRises(edges, w, i, t - 1); }
    }
  }

  /** The folded frame's nodes lead back to the parent through the low link's witness. */
  lemma ParentMutual(edges: Edges, w: Walk)
    requires CanMerge(edges, w) && w.Linked(edges) && w.Mutual(edges)
    ensures var t := |w.frames| - 1;
            Reaches(edges, w.frames[t].node, w.frames[t - 1].node)
            && Reaches(edges, w.frames[t - 1].node, w.frames[t].node)
  {
    var t := |w.frames| - 1;
    var below := w.stack[w.wit[t]];
    var j := OwnerOf(edges, w, w.wit[t]);
    assert j <= t - 1 && w.Together(edges, j, w.wit[t]);
    FramesReach(edges, w, j, t - 1);
    ReachesTrans(edges, below, w.frames[j].node, w.frames[t - 1].node);
    ReachesTrans(edges, w.frames[t].node, below, w.frames[t - 1].node);
  }

  lemma MergeMutual(edges: Edges, w: Walk)
    requires CanMerge(edges, w) && Merged(w).Framed(edges) && w.Mutual(edges)
    requires var t := |w.frames| - 1;
             Reaches(edges, w.frames[t].node, w.frames[t - 1].node)
             && Reaches(edges, w.frames[t - 1].node, w.frames[t].node)
    ensures Merged(w).Mutual(edges)
  {
    var x := Merged(w);
    var t := |w.frames| - 1;
    var parent, child := w.frames[t - 1].node, w.frames[t].node;
    forall i: nat, q: nat | x.Owns(i, q)
      ensures x.Together(edges, i, q)
    {
      MergeOwns(edges, w, i, q);
      if w.Owns(i, q) {
        assert w.Together(edges, i, q);
      } else {
        assert w.Together(edges, t, q);
        ReachesTrans(edges, parent, child, w.stack[q]);
        ReachesTrans(edges, w.stack[q], child, parent);
      }
    }
  }

  lemma MergeExplored(edges: Edges, w: Walk)
    requires CanMerge(edges, w) && Merged(w).Framed(edges) && w.Explored(edges)
    ensures Merged(w).Explored(edges)
  {
    var x := Merged(w);
    var t := |w.frames| - 1;
    forall i: nat, q: nat, k: nat | x.Followed(edges, i, q, k)
      ensures x.Covered(i, edges[x.stack[q]][k])
    {
      MergeOwns(edges, w, i, q);
      if w.Owns(i, q) {
        assert w.Followed(edges, i, q, k) && w.Covered(i, edges[w.stack[q]][k]);
      } else {
        assert w.Followed(edges, t, q, k) && w.Covered(t, edges[w.stack[q]][k]);
      }
    }
  }

  lemma MergeKeeps(edges: Edges, w: Walk)
    requires CanMerge(edges, w) && w.Valid(edges)
    ensures Merged(w).Valid(edges)
  {
    MergeFramed(edges, w);
    LesserOrder(|edges|, w, w.wit[|w.frames| - 2], w.wit[|w.frames| - 1]);
    MergeLinked(edges, w);
    ParentMutual(edges, w);
    MergeMutual(edges, w);
    MergeExplored(edges, w);
    SameStack(edges, w, Merged(w));
  }

  // ----- a finished component

  /** The finished top frame's low link is its own order: it roots a component. */
  ghost predicate CanPop(edges: Edges, w: Walk) {
    Finished(edges, w) && w.wit[|w.wit| - 1] == w.pos[|w.pos| - 1]
  }

  /** The nodes the top frame owns, as they come off the stack. */
  ghost predicate IsComponent(w: Walk, component: seq<nat>)
    requires w.pos != [] && w.pos[|w.pos| - 1] <= |w.stack|
  {
    && |component| == |w.stack| - w.pos[|w.pos| - 1]
    && forall r :: 0 <= r < |component| ==> component[r] == w.stack[|w.stack| - 1 - r]
  }

  predicate Looped(edges: Edges, component: seq<nat>)
    requires forall r :: 0 <= r < |component| ==> component[r] < |edges|
  {
    |component| > 1 || (|component| > 0 && component[0] in edges[component[0]])
  }

  ghost predicate IsPopped(edges: Edges, w: Walk, x: Walk, component: seq<nat>)
    requires CanPop(edges, w) && IsComponent(w, component)
  {
    var t := |w.frames| - 1;
    && |x.onStack| == |w.onStack|
    && (forall v: nat :: x.Live(v) <==> w.Live(v) && w.at[v] < w.pos[t])
    && x == w.(onStack := x.onStack, stack := w.stack[..w.pos[t]],
               frames := w.frames[..t], pos := w.pos[..t], wit := w.wit[..t], members := x.members)
    && x.members == w.members + (if Looped(edges, component) then component else [])
  }

  lemma PopFramed(edges: Edges, w: Walk, x: Walk, component: seq<nat>)
    requires CanPop(edges, w) && IsComponent(w, component) && IsPopped(edges, w, x, component)
    ensures x.Shape(|edges|) && x.Framed(edges)
  {
    var t := |w.frames| - 1;
    forall i | 0 <= i < t ensures w.pos[i] < w.pos[t] { PosRises(edges, w, i, t); }
  }

  lemma PopOwns(edges: Edges, w: Walk, x: Walk, component: seq<nat>, i: nat, q: nat)
    requires CanPop(edges, w) && IsComponent(w, component) && IsPopped(edges, w, x, component)
    requires x.Owns(i, q)
    ensures w.Owns(i, q) && w.stack[q] == x.stack[q] && w.frames[i] == x.frames[i] && w.wit[i] == x.wit[i]
  {
    if i + 1 < |x.pos| { assert x.pos[i + 1] == w.pos[i + 1]; }
  }

  lemma PopExplored(edges: Edges, w: Walk, x: Walk, component: seq<nat>)
    requires CanPop(edges, w) && IsComponent(w, component) && IsPopped(edges, w, x, component)
    requires x.Shape(|edges|) && x.Framed(edges) && w.Explored(edges)
    ensures x.Explored(edges)
  {
    forall i: nat, q: nat, k: nat | x.Followed(edges, i, q, k)
      ensures x.Covered(i, edges[x.stack[q]][k])
    {
      PopOwns(edges, w, x, component, i, q);
      assert w.Followed(edges, i, q, k) && w.Covered(i, edges[w.stack[q]][k]);
    }
  }

  lemma PopLinked(edges: Edges, w: Walk, x: Walk, component: seq<nat>)
    requires CanPop(edges, w) && IsComponent(w, component) && IsPopped(edges, w, x, component)
    requires x.Shape(|edges|) && x.Framed(edges) && w.Linked(edges)
    ensures x.Linked(edges)
  {}

  lemma {:induction false} PopMutual(edges: Edges, w: Walk, x: Walk, component: seq<nat>)
    requires CanPop(edges, w) && IsComponent(w, component) && IsPopped(edges, w, x, component)
    requires x.Shape(|edges|) && x.Framed(edges) && w.Mutual(edges) && w.Linked(edges)
    ensures x.Mutual(edges) && x.Linked(edges)
  {
    PopLinked(edges, w, x, component);
    hide Walk.Linked, Walk.Shape;
    forall i: nat, q: nat | x.Owns(i, q)
      ensures x.Together(edges, i, q)
    {
      PopOwns(edges, w, x, component, i, q);
      assert w.Together(edges, i, q);
    }
  }

  /** Finished nodes and the component together lead nowhere else. */
  lemma PopClosed(edges: Edges, w: Walk, v: nat, u: nat)
    requires CanPop(edges, w) && w.Settled(edges) && w.Explored(edges)
    requires w.Done(v) || (w.Live(v) && w.at[v] >= w.pos[|w.pos| - 1])
    requires u in edges[v]
    ensures w.Done(u) || (w.Live(u) && w.at[u] >= w.pos[|w.pos| - 1])
  {
    if w.Live(v) {
      var t := |w.frames| - 1;
      var k :| 0 <= k < |edges[v]| && edges[v][k] == u;
      assert w.Owns(t, w.at[v]) && w.Followed(edges, t, w.at[v], k);
      assert w.Covered(t, u);
    }
  }

  /** A component's nodes are on a cycle exactly when it has two nodes or a self-edge. */
  lemma PopOnCycle(edges: Edges, w: Walk, component: seq<nat>, v: nat)
    requires CanPop(edges, w) && IsComponent(w, component)
    requires w.Settled(edges) && w.Explored(edges) && w.Mutual(edges)
    requires v in component
    ensures OnCycle(edges, v) <==> Looped(edges, component)
  {
    var t := |w.frames| - 1;
    var cut, node := w.pos[t], w.frames[t].node;
    var r :| 0 <= r < |component| && component[r] == v;
    assert v == w.stack[|w.stack| - 1 - r];
    if |component| > 1 {
      var q := if v == node then cut + 1 else |w.stack| - 1 - r;
      assert w.Owns(t, q) && w.Together(edges, t, q);
      assert w.at[w.stack[q]] == q && w.at[node] == cut;
      if v == node { MutualOnCycle(edges, node, w.stack[q]); } else { MutualOnCycle(edges, v, node); }
    } else if v in edges[v] {
      ReachesSelf(edges, v);
    } else if OnCycle(edges, v) {
      var u :| u in edges[v] && Reaches(edges, u, v);
      PopClosed(edges, w, v, u);
      assert w.at[u] < |w.stack| || w.Done(u);
      assert w.Done(u);
      var done := set d: nat | d < |edges| && w.Done(d);
      assert Closed(edges, done);
      ClosedKeeps(edges, done, u, v);
      assert false;
    }
  }

  lemma {:induction false} PopKeeps(edges: Edges, w: Walk, x: Walk, component: seq<nat>)
    requires w.Valid(edges)
    requires CanPop(edges, w) && IsComponent(w, component) && IsPopped(edges, w, x, component)
    ensures x.Valid(edges)
  {
    PopFramed(edges, w, x, component);
    PopExplored(edges, w, x, component);
    PopMutual(edges, w, x, component);
    PopRanked(edges, w, x, component);
    PopCollected(edges, w, x, component);
    forall v: nat, u | x.Done(v) && u in edges[v] ensures x.Done(u) { PopClosed(edges, w, v, u); }
  }

  lemma PopRanked(edges: Edges, w: Walk, x: Walk, component: seq<nat>)
    requires CanPop(edges, w) && IsComponent(w, component) && IsPopped(edges, w, x, component)
    requires x.Shape(|edges|) && w.Ranked(|edges|)
    ensures x.Ranked(|edges|)
  {
    forall q, r | 0 <= q < r < |x.stack| ensures x.order[x.stack[q]] < x.order[x.stack[r]] {
      assert w.order[w.stack[q]] < w.order[w.stack[r]];
    }
  }

  lemma PopCollected(edges: Edges, w: Walk, x: Walk, component: seq<nat>)
    requires CanPop(edges, w) && IsComponent(w, component) && IsPopped(edges, w, x, component)
    requires x.Shape(|edges|)
    requires w.Settled(edges) && w.Explored(edges) && w.Mutual(edges) && w.Collected(edges)
    ensures x.Collected(edges)
  {
    var cut := w.pos[|w.pos| - 1];
    forall v: nat
      ensures v in component <==> w.Live(v) && w.at[v] >= cut
      ensures v in component ==> (OnCycle(edges, v) <==> Looped(edges, component))
    {
      if w.Live(v) && w.at[v] >= cut {
        assert component[|w.stack| - 1 - w.at[v]] == v;
      }
      if v in component { PopOnCycle(edges, w, component, v); }
    }
    forall q, r | 0 <= q < r < |x.members| ensures x.members[q] != x.members[r] {
      if q >= |w.members| {
        assert w.at[component[q - |w.members|]] == |w.stack| - 1 - (q - |w.members|);
        assert w.at[component[r - |w.members|]] == |w.stack| - 1 - (r - |w.members|);
      } else if r >= |w.members| {
        assert w.members[q] in w.members && component[r - |w.members|] in component;
      } else {
        assert w.members[q] != w.members[r];
      }
    }
    forall v: nat ensures v in x.members <==> x.Done(v) && OnCycle(edges, v) {
      assert x.Done(v) <==> w.Done(v) || v in component;
    }
  }

  // ----- the loop

  /** How the loop tests a finished frame: a low link that is its own order roots a component. */
  lemma FinishTest(edges: Edges, w: Walk)
    requires w.Valid(edges) && Finished(edges, w)
    ensures var t := |w.frames| - 1;
            var node := w.frames[t].node;
            && t < |w.pos| == |w.wit| && node < |edges|
            && (w.low[node] == w.order[node] ==> CanPop(edges, w))
            && (w.low[node] != w.order[node] ==> CanMerge(edges, w))
            && (t > 0 ==>
                  var parent := w.frames[t - 1].node;
                  && parent != node && parent < |edges|
                  && (w.low[node] == w.order[node] ==> Min(w.low[parent], w.low[node]) == w.low[parent]))
  {
    var t := |w.frames| - 1;
    LesserOrder(|edges|, w, w.wit[t], w.pos[t]);
    if t > 0 {
      PosRises(edges, w, t - 1, t);
      LesserOrder(|edges|, w, w.wit[t - 1], w.wit[t]);
    }
  }

  /** The loop's frames are the entered ones, or those and one about to be entered. */
  ghost predicate Stands(edges: Edges, w: Walk, frames: seq<Frame>) {
    && w.Shape(|edges|) && w.Framed(edges)
    && (forall i :: 0 <= i < |frames| - 1 ==> frames[i].child > 0)
    && if frames == [] || frames[|frames| - 1].child > 0 then frames == w.frames else
         var node := frames[|frames| - 1].node;
         && CanEnter(edges, w, node)
         && frames == (if w.frames == [] then [] else Advance(w.frames)) + [Frame(node, 0)]
  }

  predicate Pending(frames: seq<Frame>) { frames != [] && frames[|frames| - 1].child == 0 }

  /** Edges the loop's frames have yet to follow, and the frames themselves. */
  ghost function Work(edges: Edges, frames: seq<Frame>): nat {
    if frames == [] then 0 else
      var top := frames[|frames| - 1];
      Work(edges, frames[..|frames| - 1])
      + (if top.node < |edges| && top.child <= |edges[top.node]| then |edges[top.node]| - top.child + 1 else 0)
  }

  ghost function Below(n: nat): (s: set<nat>)
    ensures |s| == n
    ensures forall v: nat :: v in s <==> v < n
  {
    if n == 0 then {} else Below(n - 1) + {n - 1}
  }

  method PopComponent(ghost edges: Edges, ghost w: Walk, onStack: array<bool>, stack: seq<nat>, node: nat)
    returns (component: seq<nat>, rest: seq<nat>)
    requires w.Shape(|edges|) && w.Framed(edges) && w.frames != []
    requires w.onStack == onStack[..] && w.stack == stack && node == w.frames[|w.frames| - 1].node
    modifies onStack
    ensures IsComponent(w, component) && rest == w.stack[..w.pos[|w.pos| - 1]]
    ensures forall v: nat :: (v < onStack.Length && onStack[v]) <==> (w.Live(v) && w.at[v] < w.pos[|w.pos| - 1])
  {
    ghost var cut := w.pos[|w.pos| - 1];
    component, rest := [], stack;
    while |rest| > 0
      invariant cut < |rest| <= |w.stack| && rest == w.stack[..|rest|]
      invariant |component| == |w.stack| - |rest|
      invariant forall r :: 0 <= r < |component| ==> component[r] == w.stack[|w.stack| - 1 - r]
      invariant forall v: nat :: (v < onStack.Length && onStack[v]) <==> (w.Live(v) && w.at[v] < |rest|)
    {
      var member := rest[|rest| - 1];
      assert w.Live(w.stack[|rest| - 1]);
      rest := rest[..|rest| - 1];
      onStack[member] := false;
      component := component + [member];
      if member == node { break; }
    }
  }

  method SortUnstable(s: seq<nat>) returns (r: seq<nat>)
    requires forall i, j :: 0 <= i < j < |s| ==> s[i] != s[j]
    ensures forall i, j :: 0 <= i < j < |r| ==> r[i] < r[j]
    ensures forall v :: v in r <==> v in s
  {
    r := [];
    for k := 0 to |s|
      invariant forall i, j :: 0 <= i < j < |r| ==> r[i] < r[j]
      invariant forall v :: v in r <==> v in s[..k]
    {
      var at := 0;
      while at < |r| && r[at] < s[k]
        invariant 0 <= at <= |r|
        invariant forall i :: 0 <= i < at ==> r[i] < s[k]
      {
        at := at + 1;
      }
      assert s[k] !in s[..k];
      assert s[..k + 1] == s[..k] + [s[k]];
      r := r[..at] + [s[k]] + r[at..];
    }
    assert s[..|s|] == s;
  }

  ghost predicate Mirrors(w: Walk, order: array<nat>, low: array<nat>, onStack: array<bool>)
    reads order, low, onStack
  {
    w.order == order[..] && w.low == low[..] && w.onStack == onStack[..]
  }

  /** The first visit to a node: it takes the next order and goes on the stack. */
  method Enter(edges: Edges, ghost w: Walk, order: array<nat>, low: array<nat>, onStack: array<bool>, node: nat,
               next: nat)
    returns (ghost x: Walk)
    requires w.Valid(edges) && CanEnter(edges, w, node) && next == w.next
    requires Mirrors(w, order, low, onStack) && order != low
    modifies order, low, onStack
    ensures x.Valid(edges) && Mirrors(x, order, low, onStack)
    ensures x == Entered(w, node)
  {
    x := Entered(w, node);
    order[node], low[node] := next, next;
    onStack[node] := true;
    EnterKeeps(edges, w, node);
  }

  lemma CrossIn(edges: Edges, w: Walk, target: nat)
    requires w.Valid(edges) && CanCross(edges, w, target)
    ensures |w.wit| == |w.frames| > 0 && target < |w.order| == |w.low| == |w.onStack| == |w.at|
    ensures w.frames[|w.frames| - 1].node < |w.low|
  {}

  /** An edge back to a node already seen lowers the link while that node is live. */
  method Cross(edges: Edges, ghost w: Walk, order: array<nat>, low: array<nat>, onStack: array<bool>, node: nat,
               target: nat)
    returns (ghost x: Walk)
    requires w.Valid(edges) && CanCross(edges, w, target) && node == w.frames[|w.frames| - 1].node
    requires Mirrors(w, order, low, onStack) && order != low
    modifies low
    ensures x.Valid(edges) && Mirrors(x, order, low, onStack)
    ensures x.frames == Advance(w.frames) && x.order == w.order && x.next == w.next
    ensures x.stack == w.stack && x.members == w.members
  {
    hide Walk.Valid, Walk.Shape, Walk.Framed;
    CrossIn(edges, w, target);
    x := Crossed(w, target);
    if onStack[target] { low[node] := Min(low[node], order[target]); }
    CrossKeeps(edges, w, target);
  }

  /** A frame out of edges hands its low link up, and comes off whole when it roots a component. */
  method Finish(edges: Edges, ghost w: Walk, order: array<nat>, low: array<nat>, onStack: array<bool>,
                stack: seq<nat>, frames: seq<Frame>, found: seq<nat>)
    returns (rest: seq<nat>, members: seq<nat>, ghost x: Walk)
    requires w.Valid(edges) && Finished(edges, w) && frames == w.frames
    requires Mirrors(w, order, low, onStack) && order != low && stack == w.stack && found == w.members
    modifies low, onStack
    ensures x.Valid(edges) && x.frames == w.frames[..|w.frames| - 1] && x.next == w.next
    ensures Mirrors(x, order, low, onStack) && x.order == w.order && x.stack == rest && x.members == members
  {
    hide Walk.Valid;
    FinishTest(edges, w);
    var node := frames[|frames| - 1].node;
    var t := |frames| - 1;
    if t > 0 {
      var parent := frames[t - 1].node;
      low[parent] := Min(low[parent], low[node]);
    }
    if low[node] == order[node] {
      assert w.low == low[..];
      ghost var component;
      rest, members, component := PopMembers(edges, w, onStack, stack, node, found);
      x := w.(onStack := onStack[..], stack := rest, frames := w.frames[..t],
              pos := w.pos[..t], wit := w.wit[..t], members := members);
      PopKeeps(edges, w, x, component);
    } else {
      rest, members, x := stack, found, Merged(w);
      MergeKeeps(edges, w);
    }
  }

  method PopMembers(edges: Edges, ghost w: Walk, onStack: array<bool>, stack: seq<nat>, node: nat, found: seq<nat>)
    returns (rest: seq<nat>, members: seq<nat>, ghost component: seq<nat>)
    requires CanPop(edges, w) && w.onStack == onStack[..]
    requires w.stack == stack && node == w.frames[|w.frames| - 1].node
    modifies onStack
    ensures IsComponent(w, component) && rest == w.stack[..w.pos[|w.pos| - 1]]
    ensures forall v: nat :: (v < onStack.Length && onStack[v]) <==> (w.Live(v) && w.at[v] < w.pos[|w.pos| - 1])
    ensures forall r :: 0 <= r < |component| ==> component[r] < |edges|
    ensures members == found + (if Looped(edges, component) then component else [])
  {
    var popped;
    popped, rest := PopComponent(edges, w, onStack, stack, node);
    assert forall r :: 0 <= r < |popped| ==> w.Live(popped[r]);
    component := popped;
    members := if Looped(edges, popped) then found + popped else found;
  }

  lemma WorkFalls(edges: Edges, frames: seq<Frame>)
    requires frames != []
    requires var top := frames[|frames| - 1]; top.node < |edges| && top.child <= |edges[top.node]|
    ensures Work(edges, frames[..|frames| - 1]) < Work(edges, frames)
    ensures frames[|frames| - 1].child < |edges[frames[|frames| - 1].node]| ==>
              Work(edges, Advance(frames)) < Work(edges, frames)
  {
    assert Advance(frames)[..|frames| - 1] == frames[..|frames| - 1];
  }

  lemma EnteredIs(w: Walk, node: nat)
    requires node < |w.order| == |w.low| == |w.onStack| == |w.at|
    ensures var x := Entered(w, node);
            && x.order == w.order[node := w.next] && x.stack == w.stack + [node]
            && x.next == w.next + 1 && x.members == w.members
  {}

  /** What the loop's top frame is, and what entering it makes of the walk. */
  lemma TopFrame(edges: Edges, w: Walk, frames: seq<Frame>)
    requires w.Valid(edges) && Stands(edges, w, frames) && frames != []
    ensures var top := frames[|frames| - 1];
            && top.node < |edges| && top.child <= |edges[top.node]|
            && (Pending(frames) ==>
                  CanEnter(edges, w, top.node) && !w.Seen(top.node) && Entered(w, top.node).frames == frames)
            && (!Pending(frames) ==> w.frames == frames)
            && |w.order| == |w.low| == |w.onStack| == |w.at| == |edges|
    ensures forall i :: 0 <= i < |frames| - 1 ==> frames[i].child > 0
  {}

  /** The top frame's next edge can be crossed, or its target entered next. */
  lemma NextEdge(edges: Edges, w: Walk)
    requires w.Valid(edges) && w.frames != [] && w.next < UNSEEN
    requires var top := w.frames[|w.frames| - 1]; top.child < |edges[top.node]|
    requires forall i :: 0 <= i < |w.frames| - 1 ==> w.frames[i].child > 0
    ensures var top := w.frames[|w.frames| - 1];
            var target := edges[top.node][top.child];
            && target < |edges|
            && (w.Seen(target) ==> CanCross(edges, w, target))
            && (!w.Seen(target) ==> Stands(edges, w, Advance(w.frames) + [Frame(target, 0)]))
  {}

  lemma AllStand(edges: Edges, w: Walk)
    requires w.Valid(edges) && forall i :: 0 <= i < |w.frames| ==> w.frames[i].child > 0
    ensures Stands(edges, w, w.frames)
  {}

  /** The top frame follows its next edge: down into an unseen node, or across to a seen one. */
  method Follow(edges: Edges, ghost w: Walk, order: array<nat>, low: array<nat>, onStack: array<bool>,
                frames: seq<Frame>)
    returns (frames': seq<Frame>, ghost w': Walk)
    requires w.Valid(edges) && w.frames == frames != [] && w.next < UNSEEN && order.Length == |edges|
    requires var top := frames[|frames| - 1]; top.node < |edges| && top.child < |edges[top.node]|
    requires forall i :: 0 <= i < |frames| - 1 ==> frames[i].child > 0
    requires Mirrors(w, order, low, onStack) && order != low
    modifies low
    ensures w'.Valid(edges) && Stands(edges, w', frames') && Mirrors(w', order, low, onStack)
    ensures w'.order == w.order && w'.next == w.next && w'.stack == w.stack && w'.members == w.members
    ensures Pending(frames') || frames' == Advance(frames)
  {
    hide Walk.Valid, Stands, CanCross;
    NextEdge(edges, w);
    var top := frames[|frames| - 1];
    var target := edges[top.node][top.child];
    frames' := frames[|frames| - 1 := Frame(top.node, top.child + 1)];
    if order[target] == UNSEEN {
      frames', w' := frames' + [Frame(target, 0)], w;
    } else {
      w' := Cross(edges, w, order, low, onStack, top.node, target);
      AllStand(edges, w');
    }
  }

  /** One turn of the loop: the top frame enters, follows one edge, or finishes. */
  method Visit(edges: Edges, ghost w: Walk, order: array<nat>, low: array<nat>, onStack: array<bool>,
               stack: seq<nat>, frames: seq<Frame>, next: nat, found: seq<nat>)
    returns (stack': seq<nat>, frames': seq<Frame>, next': nat, found': seq<nat>, ghost w': Walk)
    requires w.Valid(edges) && Stands(edges, w, frames) && frames != []
    requires next + (if Pending(frames) then 1 else 0) <= |edges| < UNSEEN
    requires Mirrors(w, order, low, onStack) && order != low
    requires stack == w.stack && next == w.next && found == w.members && order.Length == |edges|
    requires frames[|frames| - 1].node < |w.order|
    modifies order, low, onStack
    ensures w'.Valid(edges) && Stands(edges, w', frames') && Mirrors(w', order, low, onStack)
    ensures stack' == w'.stack && next' == w'.next && found' == w'.members
    ensures w'.order == if Pending(frames) then w.order[frames[|frames| - 1].node := next] else w.order
    ensures next' == next + (if Pending(frames) then 1 else 0)
    ensures Pending(frames') || Work(edges, frames') < Work(edges, frames)
  {
    hide Walk.Valid, Stands, CanEnter, Walk.Shape, Walk.Framed, Work, Finished, Entered;
    TopFrame(edges, w, frames);
    WorkFalls(edges, frames);
    var t := |frames| - 1;
    var node, child := frames[t].node, frames[t].child;
    ghost var e := w;
    stack', frames', next', found' := stack, frames, next, found;
    if child == 0 {
      EnteredIs(w, node);
      e := Enter(edges, w, order, low, onStack, node, next);
      stack', next' := stack + [node], next + 1;
    }
    if child < |edges[node]| {
      frames', w' := Follow(edges, e, order, low, onStack, frames);
    } else {
      assert Finished(edges, e) by { FinishedTop(edges, e); }
      frames' := frames[..t];
      stack', found', w' := Finish(edges, e, order, low, onStack, stack', frames, found);
      AllStand(edges, w');
    }
  }

  lemma FinishedTop(edges: Edges, w: Walk)
    requires w.Valid(edges) && w.frames != []
    requires var top := w.frames[|w.frames| - 1]; top.child == |edges[top.node]|
    ensures Finished(edges, w)
  {}

  lemma StandsEmpty(edges: Edges, w: Walk)
    requires Stands(edges, w, [])
    ensures w.frames == []
  {}

  /** `white` holds the nodes the walk has not reached, and `next` counts the others. */
  ghost predicate Unreached(w: Walk, white: set<nat>) {
    && (forall v: nat :: v in white <==> v < |w.order| && w.order[v] == UNSEEN)
    && w.next + |white| == |w.order|
  }

  lemma UnreachedHas(w: Walk, white: set<nat>, v: nat)
    requires Unreached(w, white) && v < |w.order|
    ensures v in white <==> w.order[v] == UNSEEN
    ensures w.next + (if v in white then 1 else 0) <= |w.order|
  {
    if v in white { assert |white - {v}| == |white| - 1; }
  }

  lemma UnreachedEnter(w: Walk, white: set<nat>, x: Walk, v: nat)
    requires Unreached(w, white) && v in white && |w.order| < UNSEEN
    requires v < |w.order| && x.order == w.order[v := w.next] && x.next == w.next + 1
    ensures Unreached(x, white - {v})
  {
    UnreachedHas(w, white, v);
  }

  /** The walk from one unseen root, until its frames run out. */
  method Explore(edges: Edges, ghost w: Walk, order: array<nat>, low: array<nat>, onStack: array<bool>,
                 stack: seq<nat>, root: nat, next: nat, found: seq<nat>, ghost white: set<nat>)
    returns (stack': seq<nat>, next': nat, found': seq<nat>, ghost w': Walk, ghost white': set<nat>)
    requires w.Valid(edges) && w.frames == [] && root < |edges| < UNSEEN
    requires Mirrors(w, order, low, onStack) && order != low && order.Length == |edges| && order[root] == UNSEEN
    requires stack == w.stack && next == w.next && found == w.members && Unreached(w, white)
    modifies order, low, onStack
    ensures w'.Valid(edges) && w'.frames == [] && Mirrors(w', order, low, onStack)
    ensures stack' == w'.stack && next' == w'.next && found' == w'.members && Unreached(w', white')
    ensures white' <= white && root !in white'
  {
    hide Walk.Valid, Stands, Unreached;
    UnreachedHas(w, white, root);
    RootStands(edges, w, root);
    stack', next', found', w', white' := stack, next, found, w, white;
    var frames := [Frame(root, 0)];
    while |frames| > 0
      invariant w'.Valid(edges) && Stands(edges, w', frames) && Mirrors(w', order, low, onStack)
      invariant stack' == w'.stack && next' == w'.next && found' == w'.members
      invariant white' <= white && Unreached(w', white')
      invariant (Pending(frames) && frames[|frames| - 1].node == root) || root !in white'
      decreases |white'| - (if Pending(frames) then 1 else 0), Work(edges, frames)
    {
      ghost var before, fs := w', frames;
      TopFrame(edges, w', frames);
      UnreachedHas(w', white', frames[|frames| - 1].node);
      stack', frames, next', found', w' := Visit(edges, w', order, low, onStack, stack', frames, next', found');
      if Pending(fs) {
        UnreachedEnter(before, white', w', fs[|fs| - 1].node);
        white' := white' - {fs[|fs| - 1].node};
      } else {
        UnreachedSame(before, white', w');
      }
      if Pending(frames) {
        TopFrame(edges, w', frames);
        UnreachedHas(w', white', frames[|frames| - 1].node);
      }
    }
    StandsEmpty(edges, w');
  }

  lemma UnreachedSame(w: Walk, white: set<nat>, x: Walk)
    requires Unreached(w, white) && x.order == w.order && x.next == w.next
    ensures Unreached(x, white)
  {}

  lemma RootStands(edges: Edges, w: Walk, root: nat)
    requires w.Valid(edges) && w.frames == [] && w.next < UNSEEN
    requires root < |edges| && w.order[root] == UNSEEN
    ensures Stands(edges, w, [Frame(root, 0)])
  {}

  /** The nodes on at least one directed cycle, in order, each once. */
  method CyclicMembers(edges: Edges) returns (members: seq<nat>)
    requires WellFormed(edges) && |edges| < UNSEEN
    ensures forall i, j :: 0 <= i < j < |members| ==> members[i] < members[j]
    ensures forall v: nat :: v in members <==> OnCycle(edges, v)
  {
    hide Walk.Valid, Unreached;
    var n := |edges|;
    var order, low, onStack := new nat[n](_ => UNSEEN), new nat[n](_ => 0), new bool[n](_ => false);
    var stack: seq<nat>, next, found: seq<nat> := [], 0, [];
    ghost var w := Walk(order[..], low[..], onStack[..], [], seq(n, _ => 0), [], [], [], 0, []);
    ghost var white := NothingSeen(edges, w);
    for root := 0 to n
      invariant w.Valid(edges) && w.frames == [] && Mirrors(w, order, low, onStack)
      invariant stack == w.stack && next == w.next && found == w.members
      invariant Unreached(w, white) && forall v :: v in white ==> v >= root
    {
      UnreachedHas(w, white, root);
      if order[root] == UNSEEN {
        stack, next, found, w, white := Explore(edges, w, order, low, onStack, stack, root, next, found, white);
      }
    }
    WalkOver(edges, w, white);
    members := SortUnstable(found);
  }

  lemma NothingSeen(edges: Edges, w: Walk) returns (white: set<nat>)
    requires WellFormed(edges) && |w.order| == |w.low| == |w.onStack| == |w.at| == |edges|
    requires forall v :: 0 <= v < |edges| ==> w.order[v] == UNSEEN && !w.onStack[v]
    requires w.stack == [] && w.frames == [] && w.pos == [] && w.wit == [] && w.members == [] && w.next == 0
    ensures w.Valid(edges) && Unreached(w, white)
    ensures forall v :: v in white ==> v >= 0
  {
    white := Below(|edges|);
  }

  /** With no frames left the stack is empty, so every node reached is finished. */
  lemma WalkOver(edges: Edges, w: Walk, white: set<nat>)
    requires w.Valid(edges) && w.frames == [] && Unreached(w, white)
    requires forall v :: v in white ==> v >= |edges|
    ensures forall v: nat :: v in w.members <==> OnCycle(edges, v)
    ensures forall i, j :: 0 <= i < j < |w.members| ==> w.members[i] != w.members[j]
  {
    forall v: nat ensures !w.Live(v) {}
    forall v: nat | v < |edges| ensures w.Seen(v) { assert v !in white; }
  }
}
