// Where a provision is published and which one a consumer can find.

module Lookup {
  import opened Profiles
  import opened Contexts

  /** A named realm's slots are anchored at the tree root; the root realm stays positional. */
  method AddressOf(tree: ContextTree, at: Layer, service: Service, realm: Realm) returns (address: Address)
    requires tree.Valid()
    modifies tree.names, tree.realms
    ensures tree.Valid() && old(tree.names.reverse) <= tree.names.reverse
            && old(tree.realms.reverse) <= tree.realms.reverse
    ensures address.realm < |tree.realms.reverse| && tree.realms.reverse[address.realm] == realm
    ensures address.service == service && service.name in tree.names.reverse
    ensures address.context == if realm == Root then at.id else 0
  {
    var realmId := tree.realms.Intern(realm);
    var name := tree.names.Intern(service.name);
    if realmId != ROOT_REALM { tree.RealmsDistinct(realmId); }
    address := Address(if realmId == ROOT_REALM then at.id else tree.RootLayer().id, service, realmId);
  }

  /** What a consumer over `layers` can see of a slot that a lane provided in `realm`. */
  ghost predicate Sees(layers: Layers, service: string, realm: Realm) {
    realm == RealmIn(layers, service) && (realm == Root ==> SameRealmDownTo(layers, service, 0))
  }

  /**
   * The slot a consumer's context finds for a service: in a named realm the
   * realm-global slot, in the root realm the nearest frame's before the boundary.
   */
  method Locate<T>(tree: ContextTree, from: Layer, ghost layers: Layers, service: Service, slots: map<Address, T>)
      returns (found: Option<Address>)
    requires tree.Valid() && tree.Holds(from, layers)
    modifies tree.names
    ensures tree.Valid() && tree.Holds(from, layers) && old(tree.names.reverse) <= tree.names.reverse
    ensures found.Some? ==> && found.value in slots && found.value.service == service
                            && found.value.realm < |tree.realms.reverse|
                            && tree.realms.reverse[found.value.realm] == RealmIn(layers, service.name)
    ensures RealmIn(layers, service.name) != Root && found.Some? ==> found.value.context == 0
    // With every slot anchored at the tree root, as lanes provide: found exactly when seen.
    ensures forall r: nat :: r < |tree.realms.reverse| && (forall a :: a in slots ==> a.context == 0) ==>
              (found == Some(Address(0, service, r)) <==>
                 Address(0, service, r) in slots && Sees(layers, service.name, tree.realms.reverse[r]))
  {
    hide RealmIn, SameRealmDownTo, StandsFor;
    ghost var names0 := tree.names.reverse;
    var name := tree.names.Intern(service.name);
    tree.NamesDistinct();
    StandsForStill(from, layers, names0, tree.realms.reverse, tree.names.reverse, tree.realms.reverse);
    var realm := tree.RealmOf(from, layers, name);
    ghost var depth: nat;
    if realm != ROOT_REALM {
      var address := Address(tree.RootLayer().id, service, realm);
      found := if address in slots then Some(address) else None;
      tree.RealmsDistinct(realm);
    } else {
      found, depth := tree.Resolve(from, layers, service, name, slots);
    }
    forall r: nat | r < |tree.realms.reverse| && (forall a :: a in slots ==> a.context == 0)
      ensures found == Some(Address(0, service, r)) <==>
              Address(0, service, r) in slots && Sees(layers, service.name, tree.realms.reverse[r])
    {
      SameRealmId(tree, realm, r);
      OnlyRootIsZero(from, layers, 0, tree.names.reverse, tree.realms.reverse);
      if realm == ROOT_REALM && found.Some? {
        OnlyRootIsZero(from, layers, depth, tree.names.reverse, tree.realms.reverse);
      }
    }
  }

  lemma SameRealmId(tree: ContextTree, a: nat, b: nat)
    requires tree.Valid() && a < |tree.realms.reverse| && b < |tree.realms.reverse|
    ensures tree.realms.reverse[a] == tree.realms.reverse[b] <==> a == b
  {
    assert tree.realms.forward[tree.realms.reverse[a]] == a;
    assert tree.realms.forward[tree.realms.reverse[b]] == b;
  }

  /** The frame with the root's identity is the root, at depth zero. */
  lemma {:induction false} OnlyRootIsZero(from: Layer, layers: Layers, d: nat, names: seq<string>, realms: seq<Realm>)
    requires StandsFor(from, layers, names, realms) && d <= |layers|
    ensures from.depth == |layers| && Above(from, |layers| - d).Some?
    ensures Above(from, |layers| - d).value.id == 0 <==> d == 0
    decreases layers
  {
    if d < |layers| { OnlyRootIsZero(from.parent.value, layers[..|layers| - 1], d, names, realms); }
  }
}
