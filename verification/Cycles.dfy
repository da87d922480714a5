// Static dependency-cycle detection over the desired document, and the
// quarantine of cycle members out of a plan.

module Cycles {
  import opened Profiles
  import opened Forest
  import opened Contexts
  import opened Diff
  import opened Lookup
  import G = Graph
  import Tarjan

  /** The lanes registered, by package. */
  type Lanes = map<string, Lane>

  // ----- the dependency relation, statically and at run time

  /** The realm the plan-time analysis assigns an entry for a service. */
  ghost function StaticRealm(m: Doc, id: EntryId, service: string): Realm
    requires Stands(m, id)
  {
    FirstRealmIn(Ancestry(m, id), service)
  }

  /** An effectively enabled entry whose package has a lane. */
  ghost predicate IsNode(m: Doc, lanes: Lanes, id: EntryId) {
    Stands(m, id) && !Disabled(m, id) && m[id].plugin.package in lanes
  }

  function LaneOf(m: Doc, lanes: Lanes, id: EntryId): Lane
    requires id in m && m[id].plugin.package in lanes
  {
    lanes[m[id].plugin.package]
  }

  /** A charted dependency: `a` injects a service name that `b` provides in the realm assigned to both. */
  ghost predicate ChartedFor(m: Doc, lanes: Lanes, a: EntryId, b: EntryId, service: Service) {
    && IsNode(m, lanes, a) && IsNode(m, lanes, b)
    && service in LaneOf(m, lanes, a).injects
    && LaneOf(m, lanes, b).offers.Some?
    && LaneOf(m, lanes, b).offers.value.name == service.name
    && StaticRealm(m, a, service.name) == StaticRealm(m, b, service.name)
  }

  ghost predicate Charted(m: Doc, lanes: Lanes, a: EntryId, b: EntryId) {
    exists service :: ChartedFor(m, lanes, a, b, service)
  }

  /** A closed walk of at least one dependency, through `id`. */
  ghost predicate ChartedLoop(m: Doc, lanes: Lanes, walk: seq<EntryId>) {
    && |walk| >= 2 && walk[0] == walk[|walk| - 1]
    && forall i :: 0 <= i < |walk| - 1 ==> Charted(m, lanes, walk[i], walk[i + 1])
  }

  ghost predicate InChartedLoop(m: Doc, lanes: Lanes, id: EntryId) {
    exists walk :: ChartedLoop(m, lanes, walk) && walk[0] == id
  }

  /** What `a`'s context finds at run time: a slot `b`'s lane provided, for a service `a` injects. */
  ghost predicate FindsFor(m: Doc, lanes: Lanes, a: EntryId, b: EntryId, service: Service) {
    && IsNode(m, lanes, a) && IsNode(m, lanes, b)
    && service in LaneOf(m, lanes, a).injects
    && LaneOf(m, lanes, b).offers == Some(service)
    && Sees(Ancestry(m, a), service.name, RealmIn(Ancestry(m, b), service.name))
  }

  ghost predicate Finds(m: Doc, lanes: Lanes, a: EntryId, b: EntryId) {
    exists service :: FindsFor(m, lanes, a, b, service)
  }

  /** Every isolation list reads each service the same from either end. */
  ghost predicate ReadAlike(m: Doc) {
    forall id, service :: Stands(m, id) ==> NearestCoherent(Ancestry(m, id), service)
  }

  /** An isolation that names each service once reads alike; this is what isolation tables give. */
  lemma DistinctReadAlike(m: Doc)
    requires forall id :: id in m ==> DistinctServices(m[id].isolation)
    ensures ReadAlike(m)
  {
    forall id, service | Stands(m, id) ensures NearestCoherent(Ancestry(m, id), service) {
      EnvironmentHolds(m, id, Depth(m, id));
      DistinctReadingsAgree(Ancestry(m, id), service);
      ReadingsAgree(Ancestry(m, id), service);
    }
  }

  lemma {:induction false} EnvironmentHolds(m: Doc, id: EntryId, k: nat)
    requires Rooted(m, id, k)
    ensures |EnvironmentWithin(m, id, k)| == k + 1
    ensures forall i :: 0 <= i <= k ==> exists x :: x in m && EnvironmentWithin(m, id, k)[i].1 == m[x].isolation
    decreases k
  {
    if k > 0 { EnvironmentHolds(m, m[id].parent.value, k - 1); }
  }

  /** No edge is missed: every provider a context can find at run time is a charted dependency. */
  lemma NoEdgeMissed(m: Doc, lanes: Lanes, a: EntryId, b: EntryId)
    requires ReadAlike(m) && Finds(m, lanes, a, b)
    ensures Charted(m, lanes, a, b)
  {
    var service :| FindsFor(m, lanes, a, b, service);
    ReadingsAgree(Ancestry(m, a), service.name);
    ReadingsAgree(Ancestry(m, b), service.name);
    assert ChartedFor(m, lanes, a, b, service);
  }

  /**
   * A charted dependency on the same contract is real exactly when its realm is named, or the
   * consumer's whole ancestry leaves the service in the root realm.
   */
  lemma ChartedIsRealWhen(m: Doc, lanes: Lanes, a: EntryId, b: EntryId, service: Service)
    requires ReadAlike(m) && ChartedFor(m, lanes, a, b, service)
    requires LaneOf(m, lanes, b).offers == Some(service)
    ensures FindsFor(m, lanes, a, b, service) <==>
              StaticRealm(m, a, service.name) != Root || SameRealmDownTo(Ancestry(m, a), service.name, 0)
  {
    ReadingsAgree(Ancestry(m, a), service.name);
    ReadingsAgree(Ancestry(m, b), service.name);
  }

  /** A consumer that rebinds a service to root below a named-realm ancestor does not see the root slot. */
  lemma RootBelowNamedIsCharted()
    ensures exists m: Doc, lanes: Lanes, a, b, service ::
              ReadAlike(m) && ChartedFor(m, lanes, a, b, service) && !FindsFor(m, lanes, a, b, service)
  {
    var s := Service("s", 0);
    var top, low, other := EntryId("top"), EntryId("low"), EntryId("other");
    var consumer, provider := PluginRef("c", "", ""), PluginRef("p", "", "");
    var m: Doc := map[
      top := Entry(top, PluginRef(GROUP_PACKAGE, "", ""), Config(""), false, None, [Binding("s", Shared("r"))]),
      low := Entry(low, consumer, Config(""), false, Some(top), [Binding("s", Root)]),
      other := Entry(other, provider, Config(""), false, None, [])];
    var lanes: Lanes := map["c" := Lane([s], None), "p" := Lane([], Some(s))];
    DistinctReadAlike(m);
    DepthIs(m, top, 0);
    DepthIs(m, low, 1);
    DepthIs(m, other, 0);
    var below, beside := Ancestry(m, low), Ancestry(m, other);
    RootBelowNamed();
    assert below == ROOT_BELOW_NAMED && beside == [[]];
    assert s in LaneOf(m, lanes, low).injects;
    assert ChartedFor(m, lanes, low, other, s);
    assert !FindsFor(m, lanes, low, other, s);
  }

  const ROOT_BELOW_NAMED: Layers := [[Binding("s", Shared("r"))], [Binding("s", Root)]]

  lemma RootBelowNamed()
    ensures RealmIn(ROOT_BELOW_NAMED, "s") == FirstRealmIn(ROOT_BELOW_NAMED, "s") == FirstRealmIn([[]], "s") == Root
    ensures !SameRealmDownTo(ROOT_BELOW_NAMED, "s", 0)
  {
    var below, beside: Layers := ROOT_BELOW_NAMED, [[]];
    assert beside[..0] == [] && below[..2] == below && below[..1] == [[Binding("s", Shared("r"))]];
    assert RealmIn(below[..1], "s") == Shared("r");
  }

  /** An isolation that binds one service twice hides a real dependency from the analysis. */
  lemma TwiceBoundEdgeIsMissed()
    ensures exists m: Doc, lanes: Lanes, a, b :: !ReadAlike(m) && Finds(m, lanes, a, b) && !Charted(m, lanes, a, b)
  {
    var s := Service("s", 0);
    var a, b := EntryId("a"), EntryId("b");
    var m: Doc := map[
      a := Entry(a, PluginRef("c", "", ""), Config(""), false, None, [Binding("s", Shared("r")), Binding("s", Root)]),
      b := Entry(b, PluginRef("p", "", ""), Config(""), false, None, [])];
    var lanes: Lanes := map["c" := Lane([s], None), "p" := Lane([], Some(s))];
    DepthIs(m, a, 0);
    DepthIs(m, b, 0);
    BoundTwice();
    assert Ancestry(m, a) == TWICE && Ancestry(m, b) == [[]];
    ReadingsAgree(Ancestry(m, a), "s");
    assert s in LaneOf(m, lanes, a).injects;
    assert FindsFor(m, lanes, a, b, s);
    assert !Charted(m, lanes, a, b);
    assert !NearestCoherent(Ancestry(m, a), "s");
  }

  const TWICE: Layers := [[Binding("s", Shared("r")), Binding("s", Root)]]

  lemma BoundTwice()
    ensures RealmIn(TWICE, "s") == RealmIn([[]], "s") == FirstRealmIn([[]], "s") == Root
    ensures FirstRealmIn(TWICE, "s") == Shared("r") && SameRealmDownTo(TWICE, "s", 0)
  {
    var once, beside: Layers := TWICE, [[]];
    var twice := once[0];
    assert once[..0] == [] && beside[..0] == [] && once[..1] == once;
    assert LastBinding(twice, "s") == Some(Root) && FirstBinding(twice, "s") == Some(Shared("r"));
  }

  // ----- charting

  /** The realm the entry's context will resolve a service in: the nearest binding on its ancestry. */
  method EffectiveRealm(index: EntryIndex, id: EntryId, service: string) returns (realm: Realm)
    requires index.Valid()
    ensures Stands(index.doc, id) ==> realm == StaticRealm(index.doc, id, service)
    ensures !Stands(index.doc, id) ==> realm == Root
  {
    var chain := index.EnvironmentOf(id);
    ghost var layers := Isolations(chain);
    var k := |chain|;
    assert layers[..k] == layers;
    while k > 0
      invariant 0 <= k <= |chain| && FirstRealmIn(layers[..k], service) == FirstRealmIn(layers, service)
    {
      k := k - 1;
      assert layers[..k + 1][..k] == layers[..k];
      var own := First(chain[k].1, service);
      if own.Some? { return own.value; }
    }
    return Root;
  }

  /** The first binding of a list for a service. */
  method First(bindings: seq<Binding>, service: string) returns (realm: Option<Realm>)
    ensures realm == FirstBinding(bindings, service)
  {
    for i := 0 to |bindings|
      invariant FirstBinding(bindings, service) == FirstBinding(bindings[i..], service)
    {
      if bindings[i].service == service { return Some(bindings[i].realm); }
      assert bindings[i..][1..] == bindings[i + 1..];
    }
    return None;
  }

  /** A lane offers a service name in the realm its entry is assigned. */
  ghost predicate Offers(m: Doc, lanes: Lanes, id: EntryId, key: (string, Realm)) {
    && IsNode(m, lanes, id) && LaneOf(m, lanes, id).offers.Some?
    && key.0 == LaneOf(m, lanes, id).offers.value.name && key.1 == StaticRealm(m, id, key.0)
  }

  function Found(providers: map<(string, Realm), seq<nat>>, key: (string, Realm)): seq<nat> {
    if key in providers then providers[key] else []
  }

  ghost predicate NodesAre(m: Doc, lanes: Lanes, nodes: seq<EntryId>) {
    && (forall i, j :: 0 <= i < j < |nodes| ==> nodes[i] != nodes[j])
    && (forall id :: id in nodes <==> IsNode(m, lanes, id))
  }

  /** The first `n` nodes' offers, by service name and realm. */
  ghost predicate ProvidersAre(m: Doc, lanes: Lanes, nodes: seq<EntryId>, n: nat,
                               providers: map<(string, Realm), seq<nat>>)
    requires n <= |nodes|
  {
    forall key, j: nat {:trigger j in Found(providers, key)} :: j in Found(providers, key) <==>
      j < n && Offers(m, lanes, nodes[j], key)
  }

  ghost predicate EdgesAre(m: Doc, lanes: Lanes, nodes: seq<EntryId>, n: nat, edges: G.Edges) {
    && |edges| == n <= |nodes|
    && forall i, j: nat {:trigger j in edges[i]} :: 0 <= i < n ==>
         (j in edges[i] <==> j < |nodes| && Charted(m, lanes, nodes[i], nodes[j]))
  }

  /** The effectively enabled entries with a registered lane, in document order. */
  method Nodes(index: EntryIndex, lanes: Lanes) returns (nodes: seq<EntryId>)
    requires index.Valid()
    ensures NodesAre(index.doc, lanes, nodes) && |nodes| <= |index.entries|
  {
    hide Stands, Disabled, Records;
    RecordsHold(index.entries);
    var kept := index.Kept();
    nodes := [];
    for k := 0 to |kept|
      invariant forall i, j :: 0 <= i < j < |nodes| ==> nodes[i] != nodes[j]
      invariant forall id :: id in nodes <==> IsNode(index.doc, lanes, id) && index.doc[id] in kept[..k]
      invariant |nodes| <= k
    {
      var entry := kept[k];
      assert kept[..k + 1] == kept[..k] + [entry];
      assert entry in kept;
      NoneTwice(kept, k);
      var disabled := index.EffectivelyDisabled(entry.id);
      StandsIn(index.doc, entry.id);
      if !disabled && entry.plugin.package in lanes {
        nodes := nodes + [entry.id];
      }
    }
    assert kept[..|kept|] == kept;
    forall id ensures id in nodes <==> IsNode(index.doc, lanes, id) {
      StandsIn(index.doc, id);
    }
  }

  lemma StandsIn(m: Doc, id: EntryId)
    ensures Stands(m, id) ==> id in m
  {}

  lemma NoneTwice(kept: seq<Entry>, k: nat)
    requires Distinct(kept) && k < |kept|
    ensures kept[k] !in kept[..k] && forall entry :: entry in kept[..k] ==> entry.id != kept[k].id
  {}

  /** Providers by service name and assigned realm. */
  method Providers(index: EntryIndex, lanes: Lanes, nodes: seq<EntryId>)
      returns (providers: map<(string, Realm), seq<nat>>)
    requires index.Valid() && NodesAre(index.doc, lanes, nodes)
    ensures ProvidersAre(index.doc, lanes, nodes, |nodes|, providers)
  {
    hide Stands, Disabled, StaticRealm, Records, Offers;
    providers := map[];
    for position := 0 to |nodes|
      invariant ProvidersAre(index.doc, lanes, nodes, position, providers)
    {
      var id := nodes[position];
      assert IsNode(index.doc, lanes, id);
      var lane := lanes[index.Get(id).value.plugin.package];
      if lane.offers.Some? {
        var realm := EffectiveRealm(index, id, lane.offers.value.name);
        var key := (lane.offers.value.name, realm);
        OffersOne(index.doc, lanes, id, key);
        ProvidersMore(index.doc, lanes, nodes, position, providers, key);
        providers := providers[key := Found(providers, key) + [position]];
      } else {
        ProvidersSame(index.doc, lanes, nodes, position, providers);
      }
    }
  }

  lemma OffersOne(m: Doc, lanes: Lanes, id: EntryId, key: (string, Realm))
    requires IsNode(m, lanes, id) && LaneOf(m, lanes, id).offers.Some?
    requires key == (LaneOf(m, lanes, id).offers.value.name, StaticRealm(m, id, LaneOf(m, lanes, id).offers.value.name))
    ensures forall k :: Offers(m, lanes, id, k) <==> k == key
  {}

  lemma ProvidersMore(m: Doc, lanes: Lanes, nodes: seq<EntryId>, n: nat, providers: map<(string, Realm), seq<nat>>,
                      key: (string, Realm))
    requires n < |nodes| && ProvidersAre(m, lanes, nodes, n, providers)
    requires forall k :: Offers(m, lanes, nodes[n], k) <==> k == key
    ensures ProvidersAre(m, lanes, nodes, n + 1, providers[key := Found(providers, key) + [n]])
  {
    hide Offers;
    var more := providers[key := Found(providers, key) + [n]];
    forall k, j: nat ensures j in Found(more, k) <==> j < n + 1 && Offers(m, lanes, nodes[j], k) {
      assert j in Found(providers, k) <==> j < n && Offers(m, lanes, nodes[j], k);
      assert Found(more, k) == if k == key then Found(providers, k) + [n] else Found(providers, k);
    }
  }

  lemma ProvidersSame(m: Doc, lanes: Lanes, nodes: seq<EntryId>, n: nat, providers: map<(string, Realm), seq<nat>>)
    requires n < |nodes| && ProvidersAre(m, lanes, nodes, n, providers)
    requires IsNode(m, lanes, nodes[n]) && LaneOf(m, lanes, nodes[n]).offers.None?
    ensures ProvidersAre(m, lanes, nodes, n + 1, providers)
  {
    forall k, j: nat ensures j in Found(providers, k) <==> j < n + 1 && Offers(m, lanes, nodes[j], k) {
      assert j in Found(providers, k) <==> j < n && Offers(m, lanes, nodes[j], k);
    }
  }

  /** A consumer's edges: every provider of a service it injects, visible in its realm. */
  method EdgesFrom(index: EntryIndex, lanes: Lanes, nodes: seq<EntryId>, providers: map<(string, Realm), seq<nat>>,
                   i: nat)
      returns (targets: seq<nat>)
    requires index.Valid() && NodesAre(index.doc, lanes, nodes) && i < |nodes|
    requires ProvidersAre(index.doc, lanes, nodes, |nodes|, providers)
    ensures forall j: nat :: j in targets <==> j < |nodes| && Charted(index.doc, lanes, nodes[i], nodes[j])
  {
    hide Stands, Disabled, StaticRealm, Records;
    var id := nodes[i];
    assert IsNode(index.doc, lanes, id);
    var injects := lanes[index.Get(id).value.plugin.package].injects;
    targets := [];
    for k := 0 to |injects|
      invariant forall j: nat :: j in targets <==>
                  j < |nodes| && exists s :: s in injects[..k] && ChartedFor(index.doc, lanes, id, nodes[j], s)
    {
      var service := injects[k];
      var realm := EffectiveRealm(index, id, service.name);
      var found := Found(providers, (service.name, realm));
      assert injects[..k + 1] == injects[..k] + [service];
      forall j: nat
        ensures j in found <==> j < |nodes| && ChartedFor(index.doc, lanes, id, nodes[j], service)
      {
        assert j in found <==> j < |nodes| && Offers(index.doc, lanes, nodes[j], (service.name, realm));
      }
      targets := targets + found;
    }
    assert injects[..|injects|] == injects;
  }

  /** The charted relation as adjacency lists over node positions. */
  method Chart(index: EntryIndex, lanes: Lanes) returns (nodes: seq<EntryId>, edges: G.Edges)
    requires index.Valid()
    ensures NodesAre(index.doc, lanes, nodes) && EdgesAre(index.doc, lanes, nodes, |nodes|, edges)
    ensures |nodes| <= |index.entries|
  {
    hide IsNode, Charted, ProvidersAre, NodesAre;
    nodes := Nodes(index, lanes);
    var providers := Providers(index, lanes, nodes);
    edges := [];
    for i := 0 to |nodes|
      invariant EdgesAre(index.doc, lanes, nodes, i, edges)
    {
      var targets := EdgesFrom(index, lanes, nodes, providers, i);
      edges := edges + [targets];
    }
  }

  // ----- positions and entries

  lemma {:induction false} EntriesAlong(m: Doc, lanes: Lanes, nodes: seq<EntryId>, edges: G.Edges, p: seq<nat>)
      returns (walk: seq<EntryId>)
    requires EdgesAre(m, lanes, nodes, |nodes|, edges) && G.Path(edges, p)
    ensures |walk| == |p| && forall i :: 0 <= i < |p| ==> walk[i] == nodes[p[i]]
    ensures forall i :: 0 <= i < |walk| - 1 ==> Charted(m, lanes, walk[i], walk[i + 1])
  {
    walk := seq(|p|, i requires 0 <= i < |p| => nodes[p[i]]);
    forall i | 0 <= i < |walk| - 1 ensures Charted(m, lanes, walk[i], walk[i + 1]) {
      assert p[i + 1] in edges[p[i]];
    }
  }

  lemma {:induction false} PositionsAlong(m: Doc, lanes: Lanes, nodes: seq<EntryId>, edges: G.Edges, walk: seq<EntryId>)
      returns (p: seq<nat>)
    requires NodesAre(m, lanes, nodes) && EdgesAre(m, lanes, nodes, |nodes|, edges)
    requires |walk| >= 1 && forall i :: 0 <= i < |walk| ==> walk[i] in nodes
    requires forall i :: 0 <= i < |walk| - 1 ==> Charted(m, lanes, walk[i], walk[i + 1])
    ensures |p| == |walk| && G.Path(edges, p) && forall i :: 0 <= i < |p| ==> nodes[p[i]] == walk[i]
  {
    var last := |walk| - 1;
    var at :| 0 <= at < |nodes| && nodes[at] == walk[last];
    if last == 0 {
      p := [at];
    } else {
      var q := PositionsAlong(m, lanes, nodes, edges, walk[..last]);
      p := q + [at];
      assert Charted(m, lanes, walk[last - 1], walk[last]);
      assert nodes[q[last - 1]] == walk[last - 1];
    }
  }

  lemma CycleIsLoop(m: Doc, lanes: Lanes, nodes: seq<EntryId>, edges: G.Edges, v: nat)
    requires EdgesAre(m, lanes, nodes, |nodes|, edges) && v < |nodes| && G.OnCycle(edges, v)
    ensures InChartedLoop(m, lanes, nodes[v])
  {
    var w :| w in edges[v] && G.Reaches(edges, w, v);
    var p :| G.Joins(edges, p, w, v);
    var rest := EntriesAlong(m, lanes, nodes, edges, p);
    var walk := [nodes[v]] + rest;
    forall i | 0 <= i < |walk| - 1 ensures Charted(m, lanes, walk[i], walk[i + 1]) {
      if i > 0 { assert walk[i] == rest[i - 1] && walk[i + 1] == rest[i]; }
    }
    assert ChartedLoop(m, lanes, walk);
  }

  lemma LoopIsCycle(m: Doc, lanes: Lanes, nodes: seq<EntryId>, edges: G.Edges, v: nat)
    requires NodesAre(m, lanes, nodes) && EdgesAre(m, lanes, nodes, |nodes|, edges) && v < |nodes|
    requires InChartedLoop(m, lanes, nodes[v])
    ensures G.OnCycle(edges, v)
  {
    var walk :| ChartedLoop(m, lanes, walk) && walk[0] == nodes[v];
    forall i | 0 <= i < |walk| ensures walk[i] in nodes { LoopNodes(m, lanes, walk, i); }
    var p := PositionsAlong(m, lanes, nodes, edges, walk);
    assert p[0] == v && p[|p| - 1] == v;
    assert p[1] in edges[p[0]];
    var q := p[1..];
    forall i | 0 <= i < |q| - 1 ensures q[i + 1] in edges[q[i]] { assert q[i] == p[i + 1] && q[i + 1] == p[i + 2]; }
    assert G.Joins(edges, q, p[1], v);
  }

  lemma LoopNodes(m: Doc, lanes: Lanes, walk: seq<EntryId>, i: nat)
    requires ChartedLoop(m, lanes, walk) && i < |walk|
    ensures IsNode(m, lanes, walk[i])
  {
    if i < |walk| - 1 {
      assert Charted(m, lanes, walk[i], walk[i + 1]);
    } else {
      assert Charted(m, lanes, walk[0], walk[1]);
    }
  }

  /** A position is on a cycle of the adjacency lists exactly when its entry is on a charted loop. */
  lemma LoopsAgree(m: Doc, lanes: Lanes, nodes: seq<EntryId>, edges: G.Edges, v: nat)
    requires NodesAre(m, lanes, nodes) && EdgesAre(m, lanes, nodes, |nodes|, edges) && v < |nodes|
    ensures G.OnCycle(edges, v) <==> InChartedLoop(m, lanes, nodes[v])
  {
    hide *;
    if G.OnCycle(edges, v) { CycleIsLoop(m, lanes, nodes, edges, v); }
    if InChartedLoop(m, lanes, nodes[v]) { LoopIsCycle(m, lanes, nodes, edges, v); }
  }

  /** The faults for every entry on a dependency cycle: exactly those entries, each once. */
  method CycleFaults(index: EntryIndex, lanes: Lanes) returns (faults: seq<Fault>)
    requires index.Valid() && |index.entries| < Tarjan.UNSEEN
    ensures forall i :: 0 <= i < |faults| ==> faults[i].reason == DependencyCycle
    ensures forall i, j :: 0 <= i < j < |faults| ==> faults[i].entry != faults[j].entry
    ensures forall id :: (exists i :: 0 <= i < |faults| && faults[i].entry == id) <==>
              InChartedLoop(index.doc, lanes, id)
  {
    hide Charted, IsNode, G.OnCycle;
    var nodes, edges := Chart(index, lanes);
    EdgesFit(index.doc, lanes, nodes, edges);
    var members := Tarjan.CyclicMembers(edges);
    forall v | v in members ensures v < |edges| { OnCycleFits(edges, v); }
    forall i | 0 <= i < |members| ensures members[i] < |nodes| && nodes[members[i]] in nodes {
      assert members[i] in members;
    }
    faults := seq(|members|, i requires 0 <= i < |members| => Fault(nodes[members[i]], DependencyCycle));
    forall id
      ensures (exists i :: 0 <= i < |faults| && faults[i].entry == id) <==> InChartedLoop(index.doc, lanes, id)
    {
      if i :| 0 <= i < |faults| && faults[i].entry == id {
        assert members[i] in members;
        LoopsAgree(index.doc, lanes, nodes, edges, members[i]);
      }
      if InChartedLoop(index.doc, lanes, id) {
        LoopIsNode(index.doc, lanes, id);
        var v :| 0 <= v < |nodes| && nodes[v] == id;
        LoopsAgree(index.doc, lanes, nodes, edges, v);
        var i :| 0 <= i < |members| && members[i] == v;
        assert faults[i].entry == id;
      }
    }
  }

  lemma LoopIsNode(m: Doc, lanes: Lanes, id: EntryId)
    requires InChartedLoop(m, lanes, id)
    ensures IsNode(m, lanes, id)
  {
    var walk :| ChartedLoop(m, lanes, walk) && walk[0] == id;
    assert Charted(m, lanes, walk[0], walk[1]);
  }

  lemma OnCycleFits(edges: G.Edges, v: nat)
    requires G.OnCycle(edges, v)
    ensures v < |edges|
  {}

  lemma EdgesFit(m: Doc, lanes: Lanes, nodes: seq<EntryId>, edges: G.Edges)
    requires EdgesAre(m, lanes, nodes, |nodes|, edges)
    ensures G.WellFormed(edges)
  {
    forall v, k | 0 <= v < |edges| && 0 <= k < |edges[v]| ensures edges[v][k] < |edges| {
      assert edges[v][k] in edges[v];
    }
  }

  // ----- quarantine

  /** A member's first step becomes its containment and its later ones go; other steps stay as they are. */
  function Contained(steps: seq<Step>, members: set<EntryId>, live: set<EntryId>): seq<Step> {
    if steps == [] then [] else
      var n := |steps| - 1;
      var last := steps[n];
      Contained(steps[..n], members, live)
      + if last.entry !in members then [last]
        else if KindsOf(steps[..n], last.entry) != [] then []
        else [Step(last.entry, Containment(last.entry, live))]
  }

  function Without(ids: seq<EntryId>, members: set<EntryId>): seq<EntryId> {
    if ids == [] then [] else
      Without(ids[..|ids| - 1], members) + if ids[|ids| - 1] in members then [] else [ids[|ids| - 1]]
  }

  /** The steps of the entries outside `members`, in order. */
  function Others(steps: seq<Step>, members: set<EntryId>): seq<Step> {
    if steps == [] then [] else
      Others(steps[..|steps| - 1], members)
      + if steps[|steps| - 1].entry in members then [] else [steps[|steps| - 1]]
  }

  lemma {:induction false} ContainedKinds(steps: seq<Step>, members: set<EntryId>, live: set<EntryId>, id: EntryId)
    ensures KindsOf(Contained(steps, members, live), id) ==
              if id !in members then KindsOf(steps, id)
              else if KindsOf(steps, id) == [] then []
              else [Containment(id, live)]
  {
    if steps != [] {
      var n := |steps| - 1;
      var before := Contained(steps[..n], members, live);
      ContainedKinds(steps[..n], members, live, id);
      assert before + [] == before;
      KindsOfMore(before, steps[n], id);
      KindsOfMore(before, Step(steps[n].entry, Containment(steps[n].entry, live)), id);
    }
  }

  lemma OthersMore(steps: seq<Step>, step: Step, members: set<EntryId>)
    ensures Others(steps + [step], members) == Others(steps, members) + if step.entry in members then [] else [step]
  {
    assert (steps + [step])[..|steps|] == steps;
  }

  lemma {:induction false} ContainedOthers(steps: seq<Step>, members: set<EntryId>, live: set<EntryId>)
    ensures Others(Contained(steps, members, live), members) == Others(steps, members)
  {
    if steps != [] {
      var n := |steps| - 1;
      var before := Contained(steps[..n], members, live);
      ContainedOthers(steps[..n], members, live);
      assert before + [] == before;
      OthersMore(before, steps[n], members);
      OthersMore(before, Step(steps[n].entry, Containment(steps[n].entry, live)), members);
    }
  }

  /** Rewrites a plan so that every cycle member lands cleanly inactive, by exactly one containment step. */
  method Quarantine(plan: Plan, members: set<EntryId>, live: set<EntryId>) returns (contained: Plan)
    ensures forall id :: id in members ==> KindsOf(contained.steps, id) == [Containment(id, live)]
    ensures forall id :: id !in members ==> KindsOf(contained.steps, id) == KindsOf(plan.steps, id)
    ensures Contained(plan.steps, members, live) <= contained.steps
    ensures Others(contained.steps, members) == Others(plan.steps, members)
    ensures contained.untouched == Without(plan.untouched, members) && contained.faults == plan.faults
  {
    hide KindsOf, Others, Contained, Without;
    var untouched := RetainIds(plan.untouched, members);
    var steps, stepped := Retain(plan.steps, members, live);
    ContainedOthers(plan.steps, members, live);
    forall id { ContainedKinds(plan.steps, members, live, id); }
    steps := Append(steps, members, members - stepped, live);
    contained := Plan(steps, plan.faults, untouched);
  }

  method RetainIds(ids: seq<EntryId>, members: set<EntryId>) returns (kept: seq<EntryId>)
    ensures kept == Without(ids, members)
  {
    kept := [];
    for i := 0 to |ids|
      invariant kept == Without(ids[..i], members)
    {
      assert ids[..i + 1][..i] == ids[..i];
      if ids[i] !in members { kept := kept + [ids[i]]; }
    }
    assert ids[..|ids|] == ids;
  }

  /** Members no step named gain a containment step. */
  method Append(before: seq<Step>, members: set<EntryId>, missing: set<EntryId>, live: set<EntryId>)
      returns (steps: seq<Step>)
    requires missing <= members && forall id :: id in missing ==> KindsOf(before, id) == []
    ensures before <= steps && Others(steps, members) == Others(before, members)
    ensures forall id :: KindsOf(steps, id) == if id in missing then [Containment(id, live)] else KindsOf(before, id)
  {
    hide KindsOf, Others;
    steps := before;
    var rest := missing;
    while rest != {}
      invariant rest <= missing && before <= steps && Others(steps, members) == Others(before, members)
      invariant forall id :: KindsOf(steps, id) == if id in missing - rest then [Containment(id, live)]
                                                   else KindsOf(before, id)
    {
      var member :| member in rest;
      var step := Step(member, Containment(member, live));
      OthersMore(steps, step, members);
      forall id { KindsOfMore(steps, step, id); }
      steps := steps + [step];
      rest := rest - {member};
    }
  }

  /** The retaining pass: containment in place of a member's first step. */
  method Retain(steps: seq<Step>, members: set<EntryId>, live: set<EntryId>)
      returns (kept: seq<Step>, stepped: set<EntryId>)
    ensures kept == Contained(steps, members, live)
    ensures forall id :: id in stepped <==> id in members && KindsOf(steps, id) != []
  {
    hide KindsOf;
    kept, stepped := [], {};
    NoKinds();
    for i := 0 to |steps|
      invariant kept == Contained(steps[..i], members, live)
      invariant forall id :: id in stepped <==> id in members && KindsOf(steps[..i], id) != []
    {
      var step := steps[i];
      assert steps[..i + 1] == steps[..i] + [step];
      forall id { KindsOfMore(steps[..i], step, id); }
      if step.entry !in members {
        kept := kept + [step];
      } else if step.entry !in stepped {
        stepped := stepped + {step.entry};
        kept := kept + [Step(step.entry, Containment(step.entry, live))];
      }
    }
    assert steps[..|steps|] == steps;
  }

  lemma NoKinds()
    ensures forall id :: KindsOf([], id) == []
  {}

  /** Quarantines the plan's cycle members: no member is ever spawned, and each is faulted. */
  method QuarantineCycles(plan: Plan, index: EntryIndex, lanes: Lanes, running: set<EntryId>)
      returns (contained: Plan, ghost members: set<EntryId>)
    requires index.Valid() && |index.entries| < Tarjan.UNSEEN
    ensures forall id :: id in members <==> InChartedLoop(index.doc, lanes, id)
    ensures forall id :: id in members ==> KindsOf(contained.steps, id) == [Containment(id, running)]
    ensures forall id :: id !in members ==> KindsOf(contained.steps, id) == KindsOf(plan.steps, id)
    ensures Others(contained.steps, members) == Others(plan.steps, members)
    ensures members == {} ==> contained == plan
    // Nothing is added to the plan's faults but one fault a member.
    ensures plan.faults <= contained.faults && FaultsEach(contained.faults[|plan.faults|..], members)
  {
    hide InChartedLoop, KindsOf, Others, FaultsEach;
    var cyclic := CycleFaults(index, lanes);
    members := FaultedBy(cyclic);
    EachFaulted(cyclic);
    NoneAdded(plan);
    if cyclic == [] { return plan, members; }
    contained := ContainFaulted(plan, cyclic, running);
  }

  /** A plan with its faulted entries contained and their faults behind its own. */
  method ContainFaulted(plan: Plan, cyclic: seq<Fault>, running: set<EntryId>) returns (contained: Plan)
    ensures forall id :: id in FaultedBy(cyclic) ==> KindsOf(contained.steps, id) == [Containment(id, running)]
    ensures forall id :: id !in FaultedBy(cyclic) ==> KindsOf(contained.steps, id) == KindsOf(plan.steps, id)
    ensures Others(contained.steps, FaultedBy(cyclic)) == Others(plan.steps, FaultedBy(cyclic))
    ensures plan.faults <= contained.faults && contained.faults[|plan.faults|..] == cyclic
  {
    hide KindsOf, Contained, Others, Without;
    var members := set i | 0 <= i < |cyclic| :: cyclic[i].entry;
    assert members == FaultedBy(cyclic);
    var live := set id | id in running && id in members;
    contained := Quarantine(plan, members, live);
    contained := contained.(faults := contained.faults + cyclic);
  }

  function FaultedBy(faults: seq<Fault>): set<EntryId> { set i | 0 <= i < |faults| :: faults[i].entry }

  lemma NoneAdded(plan: Plan)
    ensures plan.faults <= plan.faults && plan.faults[|plan.faults|..] == []
  {}

  /** One dependency-cycle fault for each member, and no other fault. */
  ghost predicate FaultsEach(faults: seq<Fault>, members: set<EntryId>) {
    && (forall i :: 0 <= i < |faults| ==> faults[i].reason == DependencyCycle)
    && (forall i, j :: 0 <= i < j < |faults| ==> faults[i].entry != faults[j].entry)
    && (forall id :: id in members <==> Fault(id, DependencyCycle) in faults)
  }

  lemma EachFaulted(faults: seq<Fault>)
    requires forall i :: 0 <= i < |faults| ==> faults[i].reason == DependencyCycle
    requires forall i, j :: 0 <= i < j < |faults| ==> faults[i].entry != faults[j].entry
    ensures FaultsEach(faults, FaultedBy(faults)) && (faults == [] <==> FaultedBy(faults) == {})
  {
    assert faults != [] ==> faults[0].entry in FaultedBy(faults);
    forall id | id in FaultedBy(faults) ensures Fault(id, DependencyCycle) in faults {
      var i :| 0 <= i < |faults| && faults[i].entry == id;
      assert faults[i] == Fault(id, DependencyCycle);
    }
  }

  /** A closed walk started from its place `i` still takes the walk's own steps. */
  lemma TurnedStep(walk: seq<EntryId>, i: nat, j: nat) returns (k: nat)
    requires i < |walk| && |walk| >= 2 && walk[0] == walk[|walk| - 1] && j < |walk| - 1
    ensures k < |walk| - 1
    ensures var turned := walk[i..] + walk[1..i + 1]; turned[j] == walk[k] && turned[j + 1] == walk[k + 1]
  {
    k := if i + j < |walk| - 1 then i + j else i + j - (|walk| - 1);
  }

  /**
   * Hence a set of running entries that avoids the faulted ones holds no run-time dependency cycle:
   * any closed walk of dependencies found at run time passes through a faulted entry.
   */
  lemma NoCycleRuns(m: Doc, lanes: Lanes, running: set<EntryId>, walk: seq<EntryId>)
    requires ReadAlike(m)
    requires forall id :: id in running ==> !InChartedLoop(m, lanes, id)
    requires |walk| >= 2 && walk[0] == walk[|walk| - 1]
    requires forall i :: 0 <= i < |walk| - 1 ==> Finds(m, lanes, walk[i], walk[i + 1])
    ensures exists i :: 0 <= i < |walk| && walk[i] !in running
    ensures forall i :: 0 <= i < |walk| ==> InChartedLoop(m, lanes, walk[i])
  {
    forall i | 0 <= i < |walk| - 1 ensures Charted(m, lanes, walk[i], walk[i + 1]) {
      NoEdgeMissed(m, lanes, walk[i], walk[i + 1]);
    }
    forall i | 0 <= i < |walk| ensures InChartedLoop(m, lanes, walk[i]) {
      var turned := walk[i..] + walk[1..i + 1];
      forall j | 0 <= j < |turned| - 1 ensures Charted(m, lanes, turned[j], turned[j + 1]) {
        var k := TurnedStep(walk, i, j);
      }
      assert ChartedLoop(m, lanes, turned);
    }
  }
}
