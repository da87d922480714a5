// The profile document as persisted: items that decode and items kept as they
// were, the slots they are restored to, and realm directives.

module Document {
  import opened Profiles
  import opened Contexts

  // ----- realm directives

  /** Parses one realm directive: `#entryId` local, `@name` shared, `/` root. */
  function ParseRealm(directive: string): (realm: Option<Realm>) {
    if |directive| > 1 && directive[0] == '#' then Some(Local(EntryId(directive[1..])))
    else if |directive| > 1 && directive[0] == '@' then Some(Shared(directive[1..]))
    else if directive == "/" then Some(Root)
    else None
  }

  function Directive(realm: Realm): string {
    match realm
    case Root => "/"
    case Local(entry) => "#" + entry.name
    case Shared(name) => "@" + name
  }

  predicate Named(realm: Realm) {
    match realm
    case Root => true
    case Local(entry) => entry.name != ""
    case Shared(name) => name != ""
  }

  /**
   * A realm survives being written and read back exactly when its name is not empty; a directive that parses
   * is written back as it was.
   */
  lemma DirectivesInvert(realm: Realm, directive: string)
    ensures ParseRealm(Directive(realm)) == Some(realm) <==> Named(realm)
    ensures !Named(realm) ==> ParseRealm(Directive(realm)) == None
    ensures ParseRealm(directive).Some? ==>
              Named(ParseRealm(directive).value) && Directive(ParseRealm(directive).value) == directive
  {
    match realm {
      case Root =>
      case Local(entry) => assert Directive(realm)[1..] == entry.name;
      case Shared(name) => assert Directive(realm)[1..] == name;
    }
    if |directive| > 1 { assert directive == [directive[0]] + directive[1..]; }
  }

  // ----- items

  /** How one item's text decodes, and how an entry renders. */
  datatype Codec<!E> = Codec(decode: string -> Option<E>, render: E -> string)

  /** An item that did not decode, with the slot it was read from. */
  datatype Raw = Raw(index: nat, text: string)

  datatype Document<E> = Document(entries: seq<E>, raw: seq<Raw>)

  predicate Ascending(raw: seq<Raw>) { forall i, j :: 0 <= i < j < |raw| ==> raw[i].index < raw[j].index }

  /** The entries that decode among the first `n` items. */
  function Decoded<E>(codec: Codec<E>, items: seq<string>, n: nat): seq<E>
    requires n <= |items|
  {
    if n == 0 then [] else
      Decoded(codec, items, n - 1)
      + match codec.decode(items[n - 1]) case Some(entry) => [entry] case None => []
  }

  /** The items among the first `n` that do not. */
  function Undecoded<E>(codec: Codec<E>, items: seq<string>, n: nat): seq<Raw>
    requires n <= |items|
  {
    if n == 0 then [] else
      Undecoded(codec, items, n - 1)
      + match codec.decode(items[n - 1]) case Some(_) => [] case None => [Raw(n - 1, items[n - 1])]
  }

  lemma {:induction false} UndecodedAscend<E>(codec: Codec<E>, items: seq<string>, n: nat)
    requires n <= |items|
    ensures Ascending(Undecoded(codec, items, n))
    ensures forall raw :: raw in Undecoded(codec, items, n) ==>
              raw.index < n && items[raw.index] == raw.text && codec.decode(raw.text).None?
  {
    if n > 0 { UndecodedAscend(codec, items, n - 1); }
  }

  /** Reads a document's items: one that does not decode is kept whole, and its siblings still load. */
  method Parse<E>(codec: Codec<E>, items: seq<string>) returns (document: Document<E>)
    ensures document == Document(Decoded(codec, items, |items|), Undecoded(codec, items, |items|))
    ensures Ascending(document.raw)
  {
    var entries: seq<E>, raw: seq<Raw> := [], [];
    for index := 0 to |items|
      invariant entries == Decoded(codec, items, index) && raw == Undecoded(codec, items, index)
    {
      match codec.decode(items[index]) {
        case Some(entry) => entries := entries + [entry];
        case None => raw := raw + [Raw(index, items[index])];
      }
    }
    UndecodedAscend(codec, items, |items|);
    document := Document(entries, raw);
  }

  function Rendered<E>(codec: Codec<E>, entries: seq<E>): (items: seq<string>)
    ensures |items| == |entries| && forall i :: 0 <= i < |entries| ==> items[i] == codec.render(entries[i])
  {
    seq(|entries|, i requires 0 <= i < |entries| => codec.render(entries[i]))
  }

  function Min(a: nat, b: nat): nat { if a <= b then a else b }

  function InsertAt(items: seq<string>, at: nat, text: string): seq<string>
    requires at <= |items|
  {
    items[..at] + [text] + items[at..]
  }

  /** The items after the first `k` kept texts have been put back, each at its slot or at the end. */
  function Restored(items: seq<string>, raw: seq<Raw>, k: nat): (r: seq<string>)
    requires k <= |raw|
    ensures |r| == |items| + k
  {
    if k == 0 then items else
      var before := Restored(items, raw, k - 1);
      InsertAt(before, Min(raw[k - 1].index, |before|), raw[k - 1].text)
  }

  function Items<E>(codec: Codec<E>, document: Document<E>): seq<string> {
    Restored(Rendered(codec, document.entries), document.raw, |document.raw|)
  }

  /** Renders a document's items, kept texts put back at their recorded slots. */
  method Render<E>(codec: Codec<E>, document: Document<E>) returns (items: seq<string>)
    ensures items == Items(codec, document)
  {
    items := [];
    for i := 0 to |document.entries|
      invariant items == Rendered(codec, document.entries)[..i]
    {
      items := items + [codec.render(document.entries[i])];
    }
    assert items == Rendered(codec, document.entries);
    for k := 0 to |document.raw|
      invariant items == Restored(Rendered(codec, document.entries), document.raw, k)
    {
      items := InsertAt(items, Min(document.raw[k].index, |items|), document.raw[k].text);
    }
  }

  // ----- slots

  /** An item as it comes back: re-rendered where it decodes, untouched where it does not. */
  function Back<E>(codec: Codec<E>, item: string): string {
    match codec.decode(item) case Some(entry) => codec.render(entry) case None => item
  }

  /** The items from `n` on that decode, rendered. */
  function Later<E>(codec: Codec<E>, items: seq<string>, n: nat): seq<string>
    requires n <= |items|
    decreases |items| - n
  {
    if n == |items| then [] else
      (match codec.decode(items[n]) case Some(entry) => [codec.render(entry)] case None => [])
      + Later(codec, items, n + 1)
  }

  function Backs<E>(codec: Codec<E>, items: seq<string>): (r: seq<string>)
    ensures |r| == |items| && forall i :: 0 <= i < |items| ==> r[i] == Back(codec, items[i])
  {
    seq(|items|, i requires 0 <= i < |items| => Back(codec, items[i]))
  }

  lemma {:induction false} RenderedLater<E>(codec: Codec<E>, items: seq<string>, n: nat)
    requires n <= |items|
    ensures Rendered(codec, Decoded(codec, items, |items|)) == Rendered(codec, Decoded(codec, items, n))
            + Later(codec, items, n)
    decreases |items| - n
  {
    if n < |items| {
      RenderedLater(codec, items, n + 1);
      var before := Decoded(codec, items, n);
      match codec.decode(items[n]) {
        case Some(entry) =>
          assert Rendered(codec, before + [entry]) == Rendered(codec, before) + [codec.render(entry)];
        case None => assert before + [] == before;
      }
    }
  }

  /** The texts kept among the first `n` items restore those `n` slots, with the rest behind them. */
  lemma {:induction false} RestoresPrefix<E>(codec: Codec<E>, items: seq<string>, n: nat)
    requires n <= |items|
    ensures var raw := Undecoded(codec, items, |items|); var k := |Undecoded(codec, items, n)|;
            && k <= |raw| && Undecoded(codec, items, n) <= raw
            && Restored(Rendered(codec, Decoded(codec, items, |items|)), raw, k) ==
                 Backs(codec, items)[..n] + Later(codec, items, n)
  {
    UndecodedPrefix(codec, items, n);
    if n == 0 {
      RenderedLater(codec, items, 0);
      assert Rendered(codec, Decoded(codec, items, 0)) == [];
    } else {
      RestoresPrefix(codec, items, n - 1);
      RestoresOne(codec, items, n - 1);
    }
  }

  /** One more slot: a text that does not decode goes back just where the restored prefix ends. */
  lemma {:induction false} RestoresOne<E>(codec: Codec<E>, items: seq<string>, n: nat)
    requires n < |items|
    requires var raw := Undecoded(codec, items, |items|); var k := |Undecoded(codec, items, n)|;
             && k <= |raw|
             && Restored(Rendered(codec, Decoded(codec, items, |items|)), raw, k) == Backs(codec, items)[..n]
                + Later(codec, items, n)
    ensures var raw := Undecoded(codec, items, |items|); var k := |Undecoded(codec, items, n + 1)|;
            && k <= |raw|
            && Restored(Rendered(codec, Decoded(codec, items, |items|)), raw, k) ==
                 Backs(codec, items)[..n + 1] + Later(codec, items, n + 1)
  {
    hide Decoded, Rendered, Backs, Undecoded, Later, Restored, InsertAt;
    var raw := Undecoded(codec, items, |items|);
    var k := |Undecoded(codec, items, n)|;
    var texts := Rendered(codec, Decoded(codec, items, |items|));
    var done, later := Backs(codec, items)[..n], Later(codec, items, n + 1);
    SlotNext(codec, items, n);
    BacksNext(codec, items, n);
    Joined(done, Back(codec, items[n]), later);
    if codec.decode(items[n]).None? {
      RawNext(codec, items, n);
      RestoredNext(texts, raw, k);
      InsertsBetween(done, later, items[n]);
    }
  }

  lemma BacksNext<E>(codec: Codec<E>, items: seq<string>, n: nat)
    requires n < |items|
    ensures Backs(codec, items)[..n + 1] == Backs(codec, items)[..n] + [Back(codec, items[n])]
  {
    hide Back;
  }

  lemma RawNext<E>(codec: Codec<E>, items: seq<string>, n: nat)
    requires n < |items| && codec.decode(items[n]).None?
    ensures var raw := Undecoded(codec, items, |items|); var k := |Undecoded(codec, items, n)|;
            k < |raw| && raw[k] == Raw(n, items[n])
  {
    UndecodedPrefix(codec, items, n + 1);
    assert Undecoded(codec, items, |items|)[|Undecoded(codec, items, n)|] ==
             Undecoded(codec, items, n + 1)[|Undecoded(codec, items, n)|];
  }

  lemma SlotNext<E>(codec: Codec<E>, items: seq<string>, n: nat)
    requires n < |items|
    ensures Undecoded(codec, items, n + 1) ==
              Undecoded(codec, items, n) + if codec.decode(items[n]).None? then [Raw(n, items[n])] else []
    ensures Later(codec, items, n) ==
              (if codec.decode(items[n]).None? then [] else [Back(codec, items[n])]) + Later(codec, items, n + 1)
  {}

  lemma RestoredNext(texts: seq<string>, raw: seq<Raw>, k: nat)
    requires k < |raw|
    ensures Restored(texts, raw, k + 1) ==
              InsertAt(Restored(texts, raw, k), Min(raw[k].index, |Restored(texts, raw, k)|), raw[k].text)
  {}

  lemma Joined(a: seq<string>, text: string, b: seq<string>)
    ensures [] + b == b && a + ([text] + b) == (a + [text]) + b
  {}

  lemma InsertsBetween(a: seq<string>, b: seq<string>, text: string)
    ensures InsertAt(a + b, |a|, text) == a + [text] + b
  {
    assert (a + b)[..|a|] == a && (a + b)[|a|..] == b;
  }

  lemma {:induction false} UndecodedPrefix<E>(codec: Codec<E>, items: seq<string>, n: nat)
    requires n <= |items|
    ensures Undecoded(codec, items, n) <= Undecoded(codec, items, |items|)
    decreases |items| - n
  {
    if n < |items| { UndecodedPrefix(codec, items, n + 1); }
  }

  /** Every item comes back to its own slot: rendered anew where it decodes, byte for byte where it does not. */
  lemma SlotsAreRestored<E>(codec: Codec<E>, items: seq<string>)
    ensures Items(codec, Document(Decoded(codec, items, |items|), Undecoded(codec, items, |items|))) ==
              Backs(codec, items)
  {
    RestoresPrefix(codec, items, |items|);
    assert Backs(codec, items)[..|items|] + [] == Backs(codec, items);
  }

  // ----- kept texts through any sequence of saves

  /** Where the `k`th kept text stands over `m` entries. */
  function Slot(raw: seq<Raw>, m: nat, k: nat): nat
    requires k < |raw|
  {
    Min(raw[k].index, m + k)
  }

  /** Over any entries at all, each kept text is there, and they stand in the order they were read in. */
  lemma {:induction false} KeptInOrder(items: seq<string>, raw: seq<Raw>, k: nat)
    requires k <= |raw| && Ascending(raw)
    ensures forall j :: 0 <= j < k ==>
              Slot(raw, |items|, j) < |items| + k && Restored(items, raw, k)[Slot(raw, |items|, j)] == raw[j].text
    ensures forall i, j :: 0 <= i < j < k ==> Slot(raw, |items|, i) < Slot(raw, |items|, j)
  {
    if k > 0 {
      KeptInOrder(items, raw, k - 1);
      var at := Slot(raw, |items|, k - 1);
      forall j | 0 <= j < k - 1 ensures Slot(raw, |items|, j) < at { assert raw[j].index < raw[k - 1].index; }
    }
  }

  /** Every item of a rendered document is an entry's or a kept text. */
  lemma {:induction false} RestoredFrom(items: seq<string>, raw: seq<Raw>, k: nat)
    requires k <= |raw|
    ensures forall text :: text in Restored(items, raw, k) ==>
              text in items || exists j :: 0 <= j < k && raw[j].text == text
  {
    if k > 0 {
      RestoredFrom(items, raw, k - 1);
      forall text | text in Restored(items, raw, k)
        ensures text in items || exists j :: 0 <= j < k && raw[j].text == text
      {
        var before := Restored(items, raw, k - 1);
        var at := Min(raw[k - 1].index, |before|);
        var i :| 0 <= i < |before| + 1 && Restored(items, raw, k)[i] == text;
        if i == at {
          assert raw[k - 1].text == text;
        } else {
          assert text == if i < at then before[i] else before[i - 1];
          assert text in before;
        }
      }
    }
  }

  /** The codec's own promise on an entry: what it renders decodes to it. */
  ghost predicate RoundTrips<E>(codec: Codec<E>, entry: E) { codec.decode(codec.render(entry)) == Some(entry) }

  /**
   * Saving what was read from a save changes nothing: over any entries the codec round-trips, and kept
   * texts that still do not decode, rendering what the rendering parses to is that rendering.
   */
  lemma RenderIsFixed<E>(codec: Codec<E>, document: Document<E>)
    requires forall entry :: entry in document.entries ==> RoundTrips(codec, entry)
    requires forall raw :: raw in document.raw ==> codec.decode(raw.text).None?
    ensures var items := Items(codec, document);
            Items(codec, Document(Decoded(codec, items, |items|), Undecoded(codec, items, |items|))) == items
  {
    var items := Items(codec, document);
    SlotsAreRestored(codec, items);
    RestoredFrom(Rendered(codec, document.entries), document.raw, |document.raw|);
    forall i | 0 <= i < |items| ensures Back(codec, items[i]) == items[i] {
      assert items[i] in items;
      if items[i] in Rendered(codec, document.entries) {
        var e :| 0 <= e < |document.entries| && Rendered(codec, document.entries)[e] == items[i];
        assert RoundTrips(codec, document.entries[e]);
      } else {
        var j :| 0 <= j < |document.raw| && document.raw[j].text == items[i];
        assert document.raw[j] in document.raw;
      }
    }
  }

  // ----- saves

  datatype Persisted = Persisted(
    id: string, plugin: PluginRef, config: Config, disabled: bool, parent: Option<string>,
    isolate: map<string, string>, extra: seq<(string, string)>)

  /** The unknown fields a baseline keeps for an id: those of its first entry with it. */
  function ExtraOf(entries: seq<Persisted>, id: string): seq<(string, string)> {
    if entries == [] then [] else if entries[0].id == id then entries[0].extra else ExtraOf(entries[1..], id)
  }

  function Isolated(bindings: seq<Binding>): map<string, string> {
    if bindings == [] then map[] else
      var last := bindings[|bindings| - 1];
      Isolated(bindings[..|bindings| - 1])[last.service := Directive(last.realm)]
  }

  function Written(entry: Entry, baseline: seq<Persisted>): Persisted {
    Persisted(entry.id.name, entry.plugin, entry.config, entry.disabled,
              match entry.parent case Some(parent) => Some(parent.name) case None => None,
              Isolated(entry.isolation), ExtraOf(baseline, entry.id.name))
  }

  /** A committed profile over the baseline: unknown fields and kept texts carried over. */
  method MergeProfile(profile: seq<Entry>, baseline: Document<Persisted>) returns (document: Document<Persisted>)
    ensures document.raw == baseline.raw && |document.entries| == |profile|
    ensures forall i :: 0 <= i < |profile| ==> document.entries[i] == Written(profile[i], baseline.entries)
  {
    var entries: seq<Persisted> := [];
    for i := 0 to |profile|
      invariant |entries| == i && forall k :: 0 <= k < i ==> entries[k] == Written(profile[k], baseline.entries)
    {
      entries := entries + [Written(profile[i], baseline.entries)];
    }
    document := Document(entries, baseline.raw);
  }

  /** The first entry of an id has its config and flag replaced where given; all else is as it was. */
  ghost predicate Rewritten(was: seq<Persisted>, now: seq<Persisted>, id: string, config: Option<Config>,
                            disabled: Option<bool>) {
    exists at :: 0 <= at < |was| && was[at].id == id && (forall i :: 0 <= i < at ==> was[i].id != id)
                 && now == was[at := was[at].(config := config.UnwrapOr(was[at].config),
                                              disabled := disabled.UnwrapOr(was[at].disabled))]
  }

  /** Rewrites one persisted entry, the first of its id, and nothing else; an id the document lacks is refused. */
  method Amended(document: Document<Persisted>, id: string, config: Option<Config>, disabled: Option<bool>)
      returns (amended: Option<Document<Persisted>>)
    ensures amended.None? <==> forall i :: 0 <= i < |document.entries| ==> document.entries[i].id != id
    ensures amended.Some? ==>
              amended.value.raw == document.raw
              && Rewritten(document.entries, amended.value.entries, id, config, disabled)
  {
    var at := 0;
    while at < |document.entries| && document.entries[at].id != id
      invariant 0 <= at <= |document.entries| && forall i :: 0 <= i < at ==> document.entries[i].id != id
    {
      at := at + 1;
    }
    if at == |document.entries| { return None; }
    var entry := document.entries[at];
    if config.Some? { entry := entry.(config := config.value); }
    if disabled.Some? { entry := entry.(disabled := disabled.value); }
    amended := Some(document.(entries := document.entries[at := entry]));
  }

  /** What a persisted isolation says: its last binding of each service, as a directive. */
  lemma {:induction false} IsolatedSays(bindings: seq<Binding>, service: string)
    ensures service in Isolated(bindings) <==> LastBinding(bindings, service).Some?
    ensures service in Isolated(bindings) ==>
              Isolated(bindings)[service] == Directive(LastBinding(bindings, service).value)
  {
    if bindings != [] { IsolatedSays(bindings[..|bindings| - 1], service); }
  }

  /** Resolves a persisted isolation: every service once, or nothing when a directive does not parse. */
  method ResolveIsolation(isolate: map<string, string>) returns (bindings: Option<seq<Binding>>)
    ensures bindings.Some? <==> forall service :: service in isolate ==> ParseRealm(isolate[service]).Some?
    ensures bindings.Some? ==>
              && DistinctServices(bindings.value)
              && (forall b :: b in bindings.value <==>
                   b.service in isolate && ParseRealm(isolate[b.service]) == Some(b.realm))
  {
    var found: seq<Binding> := [];
    var rest := isolate.Keys;
    while rest != {}
      invariant rest <= isolate.Keys && DistinctServices(found)
      invariant forall b :: b in found <==>
                  b.service in isolate.Keys - rest && ParseRealm(isolate[b.service]) == Some(b.realm)
      invariant forall service :: service in isolate.Keys - rest ==> ParseRealm(isolate[service]).Some?
    {
      var service :| service in rest;
      var realm := ParseRealm(isolate[service]);
      if realm.None? { return None; }
      forall b | b in found ensures b.service != service {}
      found := found + [Binding(service, realm.value)];
      rest := rest - {service};
    }
    bindings := Some(found);
  }

  /**
   * An isolation written and read back names each service once and, its names not being empty, decides
   * every service as the run-time walk did: by its last binding.
   */
  lemma {:induction false} IsolationReturns(bindings: seq<Binding>, back: seq<Binding>, service: string)
    requires forall b :: b in bindings ==> Named(b.realm)
    requires DistinctServices(back)
    requires forall b :: b in back <==>
               b.service in Isolated(bindings) && ParseRealm(Isolated(bindings)[b.service]) == Some(b.realm)
    ensures LastBinding(back, service) == LastBinding(bindings, service) == FirstBinding(back, service)
  {
    IsolatedSays(bindings, service);
    DistinctCoherent(back, service);
    BothBind(back, service);
    if LastBinding(bindings, service).Some? {
      var realm := LastBinding(bindings, service).value;
      LastIsBound(bindings, service);
      DirectivesInvert(realm, "");
      assert Binding(service, realm) in back;
    }
    forall i | 0 <= i < |back| ensures back[i].service in Isolated(bindings) { assert back[i] in back; }
  }

  lemma {:induction false} LastIsBound(bindings: seq<Binding>, service: string)
    requires LastBinding(bindings, service).Some?
    ensures Binding(service, LastBinding(bindings, service).value) in bindings
  {
    var n := |bindings| - 1;
    if bindings[n].service != service { LastIsBound(bindings[..n], service); }
  }
}
