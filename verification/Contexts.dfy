// The context tree: interned names and realms, frozen layers, derivation, and
// the resolution walk with its isolation boundary.

module Contexts {
  import opened Profiles
  import opened Forest

  // ----- what a chain of bindings means

  function FirstBinding(bindings: seq<Binding>, service: string): Option<Realm> {
    if bindings == [] then None
    else if bindings[0].service == service then Some(bindings[0].realm)
    else FirstBinding(bindings[1..], service)
  }

  function LastBinding(bindings: seq<Binding>, service: string): Option<Realm> {
    if bindings == [] then None else
      var last := bindings[|bindings| - 1];
      if last.service == service then Some(last.realm) else LastBinding(bindings[..|bindings| - 1], service)
  }

  /** The isolation lists from the root's first child down to a context's own. */
  type Layers = seq<seq<Binding>>

  /** The realm a context resolves a service in: the nearest list binding it decides, its last binding winning. */
  function RealmIn(layers: Layers, service: string): Realm {
    if layers == [] then Root else
      match LastBinding(layers[|layers| - 1], service)
      case Some(realm) => realm
      case None => RealmIn(layers[..|layers| - 1], service)
  }

  /** The static reading: the nearest list binding the service decides, its first binding winning. */
  function FirstRealmIn(layers: Layers, service: string): Realm {
    if layers == [] then Root else
      match FirstBinding(layers[|layers| - 1], service)
      case Some(realm) => realm
      case None => FirstRealmIn(layers[..|layers| - 1], service)
  }

  lemma {:induction false} BothBind(bindings: seq<Binding>, service: string)
    ensures FirstBinding(bindings, service).Some? <==> exists i :: 0 <= i < |bindings| && bindings[i].service == service
    ensures LastBinding(bindings, service).Some? <==> exists i :: 0 <= i < |bindings| && bindings[i].service == service
    decreases |bindings|
  {
    if bindings != [] {
      var n := |bindings| - 1;
      BothBind(bindings[1..], service);
      BothBind(bindings[..n], service);
      forall i | 0 <= i < |bindings| && bindings[i].service == service
        ensures FirstBinding(bindings, service).Some? && LastBinding(bindings, service).Some?
      {
        if i > 0 { assert bindings[1..][i - 1].service == service; }
        if i < n { assert bindings[..n][i].service == service; }
      }
      if FirstBinding(bindings, service).Some? && bindings[0].service != service {
        var i :| 0 <= i < |bindings[1..]| && bindings[1..][i].service == service;
        assert bindings[i + 1].service == service;
      }
      if LastBinding(bindings, service).Some? && bindings[n].service != service {
        var i :| 0 <= i < |bindings[..n]| && bindings[..n][i].service == service;
        assert bindings[i].service == service;
      }
    }
  }

  /** One list reads a service the same from either end. */
  predicate Coherent(bindings: seq<Binding>, service: string) {
    FirstBinding(bindings, service) == LastBinding(bindings, service)
  }

  /** The list nearest a context that binds the service reads the same from either end. */
  predicate NearestCoherent(layers: Layers, service: string) {
    layers == [] ||
    var own := layers[|layers| - 1];
    if FirstBinding(own, service).Some? then Coherent(own, service)
    else NearestCoherent(layers[..|layers| - 1], service)
  }

  /** Exactly when the static reading of a chain agrees with the walk. */
  lemma {:induction false} ReadingsAgree(layers: Layers, service: string)
    ensures FirstRealmIn(layers, service) == RealmIn(layers, service) <==> NearestCoherent(layers, service)
  {
    if layers != [] {
      BothBind(layers[|layers| - 1], service);
      ReadingsAgree(layers[..|layers| - 1], service);
    }
  }

  /** No service is bound twice, as in any isolation keyed by service. */
  predicate DistinctServices(bindings: seq<Binding>) {
    forall i, j :: 0 <= i < j < |bindings| ==> bindings[i].service != bindings[j].service
  }

  lemma {:induction false} DistinctCoherent(bindings: seq<Binding>, service: string)
    requires DistinctServices(bindings)
    ensures Coherent(bindings, service)
    ensures forall i :: 0 <= i < |bindings| && bindings[i].service == service ==>
              LastBinding(bindings, service) == Some(bindings[i].realm)
    decreases |bindings|
  {
    BothBind(bindings, service);
    if bindings != [] {
      var n := |bindings| - 1;
      DistinctCoherent(bindings[1..], service);
      DistinctCoherent(bindings[..n], service);
      BothBind(bindings[1..], service);
      BothBind(bindings[..n], service);
    }
  }

  lemma {:induction false} DistinctReadingsAgree(layers: Layers, service: string)
    requires forall i :: 0 <= i < |layers| ==> DistinctServices(layers[i])
    ensures FirstRealmIn(layers, service) == RealmIn(layers, service)
  {
    if layers != [] {
      BothBind(layers[|layers| - 1], service);
      DistinctCoherent(layers[|layers| - 1], service);
      DistinctReadingsAgree(layers[..|layers| - 1], service);
    }
  }

  /** An entry that binds one service twice is read in two realms. */
  lemma ReadingsDiffer()
    ensures exists layers: Layers, service :: FirstRealmIn(layers, service) != RealmIn(layers, service)
  {
    var twice := [Binding("s", Shared("a")), Binding("s", Root)];
    var layers := [twice];
    assert twice[..1][..0] == [];
    assert LastBinding(twice, "s") == Some(Root) && FirstBinding(twice, "s") == Some(Shared("a"));
    assert FirstRealmIn(layers, "s") != RealmIn(layers, "s");
  }

  // ----- interners

  /** Interner for names or realms: equal values share one id, ids are never reassigned. */
  class Interner<T(==)> {
    var forward: map<T, nat>
    var reverse: seq<T>

    ghost predicate Valid()
      reads this
    {
      && (forall value :: value in forward ==> forward[value] < |reverse| && reverse[forward[value]] == value)
      && (forall i :: 0 <= i < |reverse| ==> reverse[i] in forward && forward[reverse[i]] == i)
    }

    constructor ()
      ensures Valid() && forward == map[] && reverse == []
    {
      forward, reverse := map[], [];
    }

    method Intern(value: T) returns (id: nat)
      requires Valid()
      modifies this
      ensures Valid() && value in forward && forward[value] == id
      ensures old(reverse) <= reverse && |reverse| <= |old(reverse)| + 1
      ensures forward == old(forward)[value := id]
      ensures value in old(forward) ==> id == old(forward)[value] && reverse == old(reverse)
      ensures value !in old(forward) ==> id == |old(reverse)|
    {
      if value in forward { return forward[value]; }
      id := |reverse|;
      reverse := reverse + [value];
      forward := forward[value := id];
    }
  }

  // ----- layers

  /** One frozen layer: own bindings sorted by name id, and the layer it was derived from. */
  datatype Layer = Layer(id: nat, depth: nat, parent: Option<Layer>, isolation: seq<(nat, nat)>)

  const ROOT_REALM: nat := 0

  function Lookup(pairs: seq<(nat, nat)>, key: nat): Option<nat> {
    if pairs == [] then None
    else if pairs[0].0 == key then Some(pairs[0].1)
    else Lookup(pairs[1..], key)
  }

  predicate Ascending(pairs: seq<(nat, nat)>) {
    forall i, j :: 0 <= i < j < |pairs| ==> pairs[i].0 < pairs[j].0
  }

  predicate DistinctKeys(pairs: seq<(nat, nat)>) {
    forall i, j :: 0 <= i < j < |pairs| ==> pairs[i].0 != pairs[j].0
  }

  lemma {:induction false} LookupIs(pairs: seq<(nat, nat)>, key: nat)
    requires DistinctKeys(pairs)
    ensures forall i :: 0 <= i < |pairs| && pairs[i].0 == key ==> Lookup(pairs, key) == Some(pairs[i].1)
    ensures (forall i :: 0 <= i < |pairs| ==> pairs[i].0 != key) ==> Lookup(pairs, key) == None
    ensures Lookup(pairs, key).Some? ==> exists i :: 0 <= i < |pairs| && pairs[i].0 == key
  {
    if pairs != [] && pairs[0].0 != key {
      LookupIs(pairs[1..], key);
      assert forall i :: 1 <= i < |pairs| ==> pairs[i] == pairs[1..][i - 1];
    }
  }

  lemma SameLookup(a: seq<(nat, nat)>, b: seq<(nat, nat)>, key: nat)
    requires DistinctKeys(a) && DistinctKeys(b)
    requires forall p :: p in a <==> p in b
    ensures Lookup(a, key) == Lookup(b, key)
  {
    LookupIs(a, key);
    LookupIs(b, key);
    if Lookup(a, key).Some? {
      var i :| 0 <= i < |a| && a[i].0 == key;
      assert a[i] in b;
    } else if Lookup(b, key).Some? {
      var i :| 0 <= i < |b| && b[i].0 == key;
      assert b[i] in a;
    }
  }

  /** Binding a key twice in one derivation keeps the last value. */
  method ReplaceOrPush(pairs: seq<(nat, nat)>, key: nat, value: nat) returns (r: seq<(nat, nat)>)
    requires DistinctKeys(pairs)
    ensures DistinctKeys(r)
    ensures forall k :: Lookup(r, k) == if k == key then Some(value) else Lookup(pairs, k)
  {
    var at := 0;
    while at < |pairs| && pairs[at].0 != key
      invariant 0 <= at <= |pairs| && forall i :: 0 <= i < at ==> pairs[i].0 != key
    {
      at := at + 1;
    }
    r := if at < |pairs| then pairs[at := (key, value)] else pairs + [(key, value)];
    forall k ensures Lookup(r, k) == if k == key then Some(value) else Lookup(pairs, k) {
      LookupIs(pairs, k);
      LookupIs(r, k);
      assert r[at] == (key, value);
      if k != key && Lookup(pairs, k).Some? {
        var i :| 0 <= i < |pairs| && pairs[i].0 == k;
        assert r[i] == pairs[i];
      }
      if k != key && Lookup(r, k).Some? {
        var i :| 0 <= i < |r| && r[i].0 == k;
        assert r[i] == pairs[i];
      }
    }
  }

  /** Freezing sorts own bindings by key; what each key is bound to does not change. */
  method SortByKey(pairs: seq<(nat, nat)>) returns (r: seq<(nat, nat)>)
    requires DistinctKeys(pairs)
    ensures Ascending(r)
    ensures forall k :: Lookup(r, k) == Lookup(pairs, k)
  {
    r := [];
    for n := 0 to |pairs|
      invariant Ascending(r) && forall p :: p in r <==> p in pairs[..n]
    {
      var at := 0;
      while at < |r| && r[at].0 < pairs[n].0
        invariant 0 <= at <= |r| && forall i :: 0 <= i < at ==> r[i].0 < pairs[n].0
      {
        at := at + 1;
      }
      forall p | p in r ensures p.0 != pairs[n].0 {
        var i :| 0 <= i < n && pairs[..n][i] == p;
        assert pairs[i].0 != pairs[n].0;
      }
      assert at < |r| ==> r[at] in r;
      assert pairs[..n + 1] == pairs[..n] + [pairs[n]];
      r := r[..at] + [pairs[n]] + r[at..];
    }
    assert pairs[..|pairs|] == pairs;
    forall k ensures Lookup(r, k) == Lookup(pairs, k) { SameLookup(r, pairs, k); }
  }

  /** The realm a layer itself binds `key` to, by binary search over its sorted bindings. */
  method OwnRealm(isolation: seq<(nat, nat)>, key: nat) returns (realm: Option<nat>)
    requires Ascending(isolation)
    ensures realm == Lookup(isolation, key)
  {
    LookupIs(isolation, key);
    var low, high := 0, |isolation|;
    while low < high
      invariant 0 <= low <= high <= |isolation|
      invariant forall i :: 0 <= i < |isolation| && !(low <= i < high) ==> isolation[i].0 != key
    {
      var mid := (low + high) / 2;
      if isolation[mid].0 < key {
        low := mid + 1;
      } else if key < isolation[mid].0 {
        high := mid;
      } else {
        return Some(isolation[mid].1);
      }
    }
    return None;
  }

  // ----- what a frozen layer stands for

  /** Own bindings say what a binding list says, through the interned names and realms. */
  ghost predicate Says(pairs: seq<(nat, nat)>, bindings: seq<Binding>, names: seq<string>, realms: seq<Realm>) {
    && (forall i :: 0 <= i < |bindings| ==> bindings[i].service in names)
    && (forall n: nat :: Lookup(pairs, n).Some? ==> n < |names|)
    && (forall n: nat :: n < |names| ==>
          match Lookup(pairs, n)
          case None => LastBinding(bindings, names[n]) == None
          case Some(r) => r < |realms| && LastBinding(bindings, names[n]) == Some(realms[r]))
  }

  predicate DistinctNames(names: seq<string>) {
    forall i, j :: 0 <= i < j < |names| ==> names[i] != names[j]
  }

  lemma {:induction false} Unbound(bindings: seq<Binding>, names: seq<string>, service: string)
    requires (forall i :: 0 <= i < |bindings| ==> bindings[i].service in names) && service !in names
    ensures LastBinding(bindings, service) == None
  {
    if bindings != [] { Unbound(bindings[..|bindings| - 1], names, service); }
  }

  /** Interning more names and realms changes nothing a layer says. */
  lemma SaysStill(pairs: seq<(nat, nat)>, bindings: seq<Binding>, names: seq<string>, realms: seq<Realm>,
                  moreNames: seq<string>, moreRealms: seq<Realm>)
    requires Says(pairs, bindings, names, realms) && names <= moreNames && realms <= moreRealms
    requires DistinctNames(moreNames)
    ensures Says(pairs, bindings, moreNames, moreRealms)
  {
    forall n: nat | n < |moreNames|
      ensures match Lookup(pairs, n)
              case None => LastBinding(bindings, moreNames[n]) == None
              case Some(r) => r < |moreRealms| && LastBinding(bindings, moreNames[n]) == Some(moreRealms[r])
    {
      if n >= |names| { Unbound(bindings, names, moreNames[n]); }
    }
  }

  /** One more binding, written over what its name was bound to. */
  lemma SaysMore(pairs: seq<(nat, nat)>, bindings: seq<Binding>, names: seq<string>, realms: seq<Realm>,
                 name: nat, realm: nat, more: seq<(nat, nat)>)
    requires Says(pairs, bindings, names, realms) && DistinctNames(names)
    requires name < |names| && realm < |realms|
    requires forall k :: Lookup(more, k) == if k == name then Some(realm) else Lookup(pairs, k)
    ensures Says(more, bindings + [Binding(names[name], realms[realm])], names, realms)
  {
    var all := bindings + [Binding(names[name], realms[realm])];
    assert all[..|bindings|] == bindings;
    forall i | 0 <= i < |all| ensures all[i].service in names {
      if i < |bindings| { assert all[i] == bindings[i]; }
    }
  }

  lemma SaysNothing(names: seq<string>, realms: seq<Realm>)
    ensures Says([], [], names, realms)
  {}

  lemma SaysSame(pairs: seq<(nat, nat)>, sorted: seq<(nat, nat)>, bindings: seq<Binding>, names: seq<string>,
                 realms: seq<Realm>)
    requires Says(pairs, bindings, names, realms) && forall k :: Lookup(sorted, k) == Lookup(pairs, k)
    ensures Says(sorted, bindings, names, realms)
  {}

  /** A layer stands for a chain of binding lists: one frozen layer per list, ids growing away from the root. */
  ghost predicate StandsFor(layer: Layer, layers: Layers, names: seq<string>, realms: seq<Realm>)
    decreases layers
  {
    layer.depth == |layers| &&
    if layers == [] then layer.parent.None? && layer.id == 0 && layer.isolation == [] else
      && layer.parent.Some? && layer.parent.value.id < layer.id && Ascending(layer.isolation)
      && Says(layer.isolation, layers[|layers| - 1], names, realms)
      && StandsFor(layer.parent.value, layers[..|layers| - 1], names, realms)
  }

  lemma {:induction false} StandsForStill(layer: Layer, layers: Layers, names: seq<string>, realms: seq<Realm>,
                                          moreNames: seq<string>, moreRealms: seq<Realm>)
    requires StandsFor(layer, layers, names, realms) && names <= moreNames && realms <= moreRealms
    requires DistinctNames(moreNames)
    ensures StandsFor(layer, layers, moreNames, moreRealms)
    decreases layers
  {
    if layers != [] {
      var n := |layers| - 1;
      SaysStill(layer.isolation, layers[n], names, realms, moreNames, moreRealms);
      StandsForStill(layer.parent.value, layers[..n], names, realms, moreNames, moreRealms);
    }
  }

  /** The layer `steps` derivations nearer the root. */
  function Above(layer: Layer, steps: nat): (above: Option<Layer>) {
    if steps == 0 then Some(layer)
    else if layer.parent.None? then None
    else Above(layer.parent.value, steps - 1)
  }

  // ----- the walk

  datatype Address = Address(context: nat, service: Service, realm: nat)

  /** The frames from a context up to where `depth` lies all read the service alike. */
  ghost predicate SameRealmDownTo(layers: Layers, service: string, depth: nat)
    requires depth <= |layers|
  {
    forall d :: depth <= d <= |layers| ==> RealmIn(layers[..d], service) == RealmIn(layers, service)
  }

  /** The frame at `depth` over a context is there and holds no root-realm slot for the service. */
  predicate Empty(from: Layer, depth: nat, service: Service, slots: set<Address>) {
    && depth <= from.depth && Above(from, from.depth - depth).Some?
    && Address(Above(from, from.depth - depth).value.id, service, ROOT_REALM) !in slots
  }

  lemma WalkStart(from: Layer, layers: Layers, service: string, names: seq<string>, realms: seq<Realm>)
    requires StandsFor(from, layers, names, realms)
    ensures from.depth == |layers|
    ensures layers[..|layers|] == layers && Above(from, 0) == Some(from) && SameRealmDownTo(layers, service, |layers|)
  {
    assert layers[..|layers|] == layers;
  }

  lemma EmptyAt(from: Layer, at: Layer, depth: nat, service: Service, slots: set<Address>)
    requires depth <= from.depth && Above(from, from.depth - depth) == Some(at)
    requires Address(at.id, service, ROOT_REALM) !in slots
    ensures Empty(from, depth, service, slots)
  {}

  lemma ParentStandsFor(at: Layer, layers: Layers, depth: nat, names: seq<string>, realms: seq<Realm>)
    requires depth <= |layers| && StandsFor(at, layers[..depth], names, realms)
    ensures at.parent.Some? <==> depth > 0
    ensures depth > 0 ==> at.parent.value.id < at.id && StandsFor(at.parent.value, layers[..depth - 1], names, realms)
  {
    if depth > 0 { assert layers[..depth][..depth - 1] == layers[..depth - 1]; }
  }

  lemma SameRealmBelow(layers: Layers, service: string, depth: nat)
    requires 0 < depth <= |layers| && SameRealmDownTo(layers, service, depth)
    ensures RealmIn(layers[..depth - 1], service) == RealmIn(layers, service) ==>
              SameRealmDownTo(layers, service, depth - 1)
    ensures RealmIn(layers[..depth - 1], service) != RealmIn(layers, service) ==>
              forall d: nat :: d < depth ==> !SameRealmDownTo(layers, service, d)
  {}

  class ContextTree {
    const names: Interner<string>
    const realms: Interner<Realm>
    var nextId: nat

    ghost predicate Valid()
      reads this, names, realms
    {
      && names != (realms as object)
      && names.Valid() && realms.Valid()
      && |realms.reverse| > ROOT_REALM && realms.reverse[ROOT_REALM] == Root
      && nextId > 0
    }

    /** `layer` is a context of this tree, over the given chain of binding lists. */
    ghost predicate Holds(layer: Layer, layers: Layers)
      reads this, names, realms
    {
      layer.id < nextId && StandsFor(layer, layers, names.reverse, realms.reverse)
    }

    constructor ()
      ensures Valid() && fresh(names) && fresh(realms)
      ensures Holds(RootLayer(), [])
    {
      names := new Interner<string>();
      realms := new Interner<Realm>();
      nextId := 1;
      new;
      var root := realms.Intern(Root);
    }

    function RootLayer(): Layer { Layer(0, 0, None, []) }

    lemma NamesDistinct()
      requires Valid()
      ensures DistinctNames(names.reverse)
    {
      forall i, j | 0 <= i < j < |names.reverse| ensures names.reverse[i] != names.reverse[j] {
        assert names.forward[names.reverse[i]] == i;
      }
    }

    /** Binds one more service over what a derivation has collected. */
    method Bind(own: seq<(nat, nat)>, ghost done: seq<Binding>, binding: Binding) returns (more: seq<(nat, nat)>)
      requires Valid() && DistinctKeys(own) && Says(own, done, names.reverse, realms.reverse)
      modifies names, realms
      ensures Valid() && DistinctKeys(more) && Says(more, done + [binding], names.reverse, realms.reverse)
      ensures old(names.reverse) <= names.reverse && old(realms.reverse) <= realms.reverse
    {
      hide Says, LastBinding, Lookup, DistinctNames;
      ghost var n, r := names.reverse, realms.reverse;
      var name := names.Intern(binding.service);
      var realm := realms.Intern(binding.realm);
      NamesDistinct();
      SaysStill(own, done, n, r, names.reverse, realms.reverse);
      more := ReplaceOrPush(own, name, realm);
      SaysMore(own, done, names.reverse, realms.reverse, name, realm, more);
    }

    /** Derives a child context binding a list of services in one frozen layer. */
    method Derive(parent: Layer, ghost layers: Layers, bindings: seq<Binding>) returns (child: Layer)
      requires Valid() && Holds(parent, layers)
      modifies this`nextId, names, realms
      ensures Valid() && Holds(child, layers + [bindings])
      ensures child.parent == Some(parent) && old(nextId) == child.id < nextId
      ensures old(names.reverse) <= names.reverse && old(realms.reverse) <= realms.reverse
    {
      hide StandsFor, Says, DistinctNames, Lookup;
      ghost var names0, realms0 := names.reverse, realms.reverse;
      var own: seq<(nat, nat)> := [];
      SaysNothing(names0, realms0);
      assert bindings[..0] == [];
      for i := 0 to |bindings|
        invariant Valid() && DistinctKeys(own)
        invariant Says(own, bindings[..i], names.reverse, realms.reverse)
        invariant names0 <= names.reverse && realms0 <= realms.reverse && nextId == old(nextId)
      {
        own := Bind(own, bindings[..i], bindings[i]);
        assert bindings[..i + 1] == bindings[..i] + [bindings[i]];
      }
      assert bindings[..|bindings|] == bindings;
      var isolation := SortByKey(own);
      SaysSame(own, isolation, bindings, names.reverse, realms.reverse);
      child := Layer(nextId, parent.depth + 1, Some(parent), isolation);
      nextId := nextId + 1;
      NamesDistinct();
      StandsForStill(parent, layers, names0, realms0, names.reverse, realms.reverse);
      Extends(child, layers, bindings, names.reverse, realms.reverse);
    }

    /** The realm a context resolves a name in: the nearest binding on the chain, the last of its list. */
    method RealmOf(layer: Layer, ghost layers: Layers, name: nat) returns (realm: nat)
      requires Valid() && Holds(layer, layers) && name < |names.reverse|
      ensures realm < |realms.reverse| && realms.reverse[realm] == RealmIn(layers, names.reverse[name])
    {
      var at := layer;
      ghost var rest := layers;
      while true
        invariant StandsFor(at, rest, names.reverse, realms.reverse)
        invariant RealmIn(rest, names.reverse[name]) == RealmIn(layers, names.reverse[name])
        decreases |rest|
      {
        NoBindings(at.isolation);
        var own := OwnRealm(at.isolation, name);
        if own.Some? { return own.value; }
        if at.parent.None? { return ROOT_REALM; }
        at, rest := at.parent.value, rest[..|rest| - 1];
      }
    }

    /**
     * The walk from a context towards the root, asking at each frame for a slot; it
     * stops past the first frame whose parent reads the name in another realm.
     */
    method Resolve<T>(from: Layer, ghost layers: Layers, service: Service, name: nat, slots: map<Address, T>)
        returns (found: Option<Address>, ghost depth: nat)
      requires Valid() && Holds(from, layers)
      requires name < |names.reverse| && names.reverse[name] == service.name
      requires RealmIn(layers, service.name) == Root
      ensures found.Some? ==>
                && depth <= |layers| && SameRealmDownTo(layers, service.name, depth)
                && depth <= from.depth && Above(from, from.depth - depth).Some?
                && found == Some(Address(Above(from, from.depth - depth).value.id, service, ROOT_REALM))
                && found.value in slots
      ensures forall d: nat :: d <= |layers| && SameRealmDownTo(layers, service.name, d)
                               && (found.Some? ==> depth < d) ==>
                Empty(from, d, service, slots.Keys)
    {
      hide StandsFor, RealmIn, Above, SameRealmDownTo, Empty;
      var at := from;
      depth := |layers|;
      WalkStart(from, layers, service.name, names.reverse, realms.reverse);
      while true
        invariant depth <= |layers| && StandsFor(at, layers[..depth], names.reverse, realms.reverse) && at.id < nextId
        invariant depth <= from.depth && Above(from, from.depth - depth) == Some(at)
        invariant SameRealmDownTo(layers, service.name, depth)
        invariant forall d: nat :: depth < d <= |layers| ==> Empty(from, d, service, slots.Keys)
        decreases depth
      {
        if Address(at.id, service, ROOT_REALM) in slots {
          return Some(Address(at.id, service, ROOT_REALM)), depth;
        }
        EmptyAt(from, at, depth, service, slots.Keys);
        ParentStandsFor(at, layers, depth, names.reverse, realms.reverse);
        if at.parent.None? {
          return None, depth;
        }
        var parent := at.parent.value;
        var realm := RealmOf(parent, layers[..depth - 1], name);
        SameRealmBelow(layers, service.name, depth);
        if realm != ROOT_REALM {
          RealmsDistinct(realm);
          return None, depth;
        }
        AboveMore(from, from.depth - depth);
        at, depth := parent, depth - 1;
      }
    }

    lemma RealmsDistinct(realm: nat)
      requires Valid() && realm < |realms.reverse| && realm != ROOT_REALM
      ensures realms.reverse[realm] != Root
    {
      assert realms.forward[realms.reverse[realm]] == realm;
    }
  }

  lemma NoBindings(isolation: seq<(nat, nat)>)
    ensures isolation == [] ==> Ascending(isolation)
  {}

  lemma {:induction false} AboveMore(layer: Layer, steps: nat)
    requires Above(layer, steps).Some? && Above(layer, steps).value.parent.Some?
    ensures Above(layer, steps + 1) == Above(layer, steps).value.parent
  {
    if steps > 0 { AboveMore(layer.parent.value, steps - 1); }
  }

  lemma Extends(child: Layer, layers: Layers, bindings: seq<Binding>, names: seq<string>, realms: seq<Realm>)
    requires child.parent.Some? && StandsFor(child.parent.value, layers, names, realms)
    requires child.parent.value.id < child.id && child.depth == child.parent.value.depth + 1
    requires Ascending(child.isolation) && Says(child.isolation, bindings, names, realms)
    ensures StandsFor(child, layers + [bindings], names, realms)
  {
    assert (layers + [bindings])[..|layers|] == layers;
  }

  // ----- the chain a document gives an entry

  /** The isolation lists of an entry's ancestry, the root's child first. */
  function Isolations(environment: seq<(EntryId, seq<Binding>)>): (layers: Layers)
    ensures |layers| == |environment|
    ensures forall i :: 0 <= i < |layers| ==> layers[i] == environment[i].1
  {
    seq(|environment|, i requires 0 <= i < |environment| => environment[i].1)
  }

  ghost function Ancestry(m: Doc, id: EntryId): Layers
    requires Stands(m, id)
  {
    Isolations(Environment(m, id))
  }

  lemma AncestryStep(m: Doc, id: EntryId)
    requires Stands(m, id)
    ensures m[id].parent.None? ==> Ancestry(m, id) == [m[id].isolation]
    ensures m[id].parent.Some? ==>
              Stands(m, m[id].parent.value) && Ancestry(m, id) == Ancestry(m, m[id].parent.value) + [m[id].isolation]
  {
    if m[id].parent.Some? { ParentStands(m, id); }
  }
}
