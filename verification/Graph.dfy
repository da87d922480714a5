// Directed graphs as adjacency lists, and what it means to lie on a cycle.

module Graph {

  type Edges = seq<seq<nat>>

  /** Every edge target names a node, as positions of a node list do. */
  ghost predicate WellFormed(edges: Edges) {
    forall v, k :: 0 <= v < |edges| && 0 <= k < |edges[v]| ==> edges[v][k] < |edges|
  }

  /** A nonempty node list whose neighbours are joined by edges. */
  ghost predicate Path(edges: Edges, p: seq<nat>) {
    && |p| > 0
    && (forall i :: 0 <= i < |p| ==> p[i] < |edges|)
    && (forall i :: 0 <= i < |p| - 1 ==> p[i + 1] in edges[p[i]])
  }

  ghost predicate Joins(edges: Edges, p: seq<nat>, a: nat, b: nat) {
    Path(edges, p) && p[0] == a && p[|p| - 1] == b
  }

  ghost predicate Reaches(edges: Edges, a: nat, b: nat) {
    exists p :: Joins(edges, p, a, b)
  }

  /** A node is on a directed cycle when some step away from it leads back; a self-edge is one. */
  ghost predicate OnCycle(edges: Edges, v: nat) {
    v < |edges| && exists w :: w in edges[v] && Reaches(edges, w, v)
  }

  ghost predicate Closed(edges: Edges, s: set<nat>) {
    forall v, w :: v in s && v < |edges| && w in edges[v] ==> w in s
  }

  lemma ReachesSelf(edges: Edges, a: nat)
    requires a < |edges|
    ensures Reaches(edges, a, a)
  {
    assert Joins(edges, [a], a, a);
  }

  lemma ReachesTrans(edges: Edges, a: nat, b: nat, c: nat)
    requires Reaches(edges, a, b) && Reaches(edges, b, c)
    ensures Reaches(edges, a, c)
  {
    var p :| Joins(edges, p, a, b);
    var q :| Joins(edges, q, b, c);
    var r := p + q[1..];
    forall i | 0 <= i < |r| - 1
      ensures r[i + 1] in edges[r[i]]
    {
      if i >= |p| - 1 {
        assert r[i] == q[i - |p| + 1] && r[i + 1] == q[i - |p| + 2];
      }
    }
    assert Joins(edges, r, a, c);
  }

  lemma ReachesStep(edges: Edges, a: nat, b: nat)
    requires WellFormed(edges) && a < |edges| && b in edges[a]
    ensures Reaches(edges, a, b)
  {
    var k :| 0 <= k < |edges[a]| && edges[a][k] == b;
    assert Joins(edges, [a, b], a, b);
  }

  /** Nothing outside a successor-closed set is reachable from inside it. */
  lemma ClosedKeeps(edges: Edges, s: set<nat>, a: nat, b: nat)
    requires Closed(edges, s) && a in s && Reaches(edges, a, b)
    ensures b in s
  {
    var p :| Joins(edges, p, a, b);
    var i := 0;
    while i < |p| - 1
      invariant 0 <= i <= |p| - 1 && p[i] in s
    {
      assert p[i + 1] in edges[p[i]];
      i := i + 1;
    }
  }

  /** Two distinct nodes that reach each other are both on a cycle. */
  lemma MutualOnCycle(edges: Edges, a: nat, b: nat)
    requires a != b && Reaches(edges, a, b) && Reaches(edges, b, a)
    ensures OnCycle(edges, a)
  {
    var p :| Joins(edges, p, a, b);
    assert |p| > 1;
    assert p[1] in edges[p[0]];
    var q := p[1..];
    forall i | 0 <= i < |q| - 1
      ensures q[i + 1] in edges[q[i]]
    {
      assert q[i] == p[i + 1] && q[i + 1] == p[i + 2];
    }
    assert Joins(edges, q, p[1], b);
    ReachesTrans(edges, p[1], b, a);
  }
}
