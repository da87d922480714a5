// Reconcile-by-id: the plan that turns the applied document into the desired one.

module Diff {
  import opened Profiles
  import opened Forest

  datatype StepKind = Create | Track | Enable | Disable | Remove | Replace | Restate | Rebind

  datatype Step = Step(entry: EntryId, kind: StepKind)

  datatype Plan = Plan(steps: seq<Step>, faults: seq<Fault>, untouched: seq<EntryId>)

  /** The kinds a list of steps has for one entry, in order. */
  function KindsOf(steps: seq<Step>, id: EntryId): seq<StepKind> {
    if steps == [] then [] else
      var last := steps[|steps| - 1];
      KindsOf(steps[..|steps| - 1], id) + (if last.entry == id then [last.kind] else [])
  }

  lemma KindsOfMore(steps: seq<Step>, step: Step, id: EntryId)
    ensures KindsOf(steps + [step], id) == KindsOf(steps, id) + (if step.entry == id then [step.kind] else [])
  {
    assert (steps + [step])[..|steps|] == steps;
  }

  lemma {:induction false} KindsOfAppend(a: seq<Step>, b: seq<Step>, id: EntryId)
    ensures KindsOf(a + b, id) == KindsOf(a, id) + KindsOf(b, id)
  {
    if b == [] {
      assert a + b == a;
    } else {
      var n := |b| - 1;
      assert (a + b)[..|a + b| - 1] == a + b[..n];
      KindsOfAppend(a, b[..n], id);
    }
  }

  lemma {:induction false} KindsOfNone(steps: seq<Step>, id: EntryId)
    ensures KindsOf(steps, id) == [] <==> forall i :: 0 <= i < |steps| ==> steps[i].entry != id
  {
    if steps != [] { KindsOfNone(steps[..|steps| - 1], id); }
  }

  // ----- what a plan is

  /** A config type's own equality, absent when none was registered. */
  type Attestation = Option<(Config, Config) -> bool>

  /** Whether an unchanged config must be assumed changed, or is. */
  predicate Restates(attested: Attestation, was: Config, now: Config) {
    attested.None? || !attested.value(was, now)
  }

  /** The steps one entry needs, in order. */
  ghost function Kinds(was: Doc, now: Doc, attested: Attestation, id: EntryId): seq<StepKind> {
    if Stands(now, id) then
      var enabled := !Disabled(now, id);
      if !Stands(was, id) then [if enabled then Create else Track]
      else
        match (!Disabled(was, id), enabled)
        case (true, false) => [Disable]
        case (false, true) => [Enable]
        case (false, false) => []
        case (true, true) =>
          if was[id].plugin != now[id].plugin then [Replace] else
            (if Environment(was, id) != Environment(now, id) then [Rebind] else [])
            + (if Restates(attested, was[id].config, now[id].config) then [Restate] else [])
    else if Stands(was, id) && id !in now then [Remove]
    else []
  }

  function Phase(kind: StepKind): nat {
    match kind
    case Disable => 0 case Remove => 0
    case Rebind => 1
    case Replace => 2
    case Restate => 3
    case Create => 4 case Track => 4 case Enable => 4
  }

  /** The step that makes one quarantined entry cleanly inactive. */
  function Containment(id: EntryId, live: set<EntryId>): StepKind { if id in live then Disable else Track }

  /** An entry's depth where its step looks it up: a removed entry's in the old document. */
  ghost function Level(was: Doc, now: Doc, step: Step): nat {
    var m := if step.kind == Remove then was else now;
    if Stands(m, step.entry) then Depth(m, step.entry) else 0
  }

  /** Disposals deepest first, then rebinds shallowest first, replaces, restates, then creations shallowest first. */
  ghost predicate Before(was: Doc, now: Doc, a: Step, b: Step) {
    || Phase(a.kind) < Phase(b.kind)
    || (Phase(a.kind) == Phase(b.kind) &&
        match Phase(a.kind)
        case 0 => Level(was, now, a) >= Level(was, now, b)
        case 2 => true
        case 3 => true
        case _ => Level(was, now, a) <= Level(was, now, b))
  }

  ghost predicate Ordered(was: Doc, now: Doc, steps: seq<Step>) {
    forall i, j :: 0 <= i < j < |steps| ==> Before(was, now, steps[i], steps[j])
  }

  ghost predicate IsPlan(was: Doc, now: Doc, attested: Attestation, steps: seq<Step>) {
    && (forall id :: KindsOf(steps, id) == Kinds(was, now, attested, id))
    && Ordered(was, now, steps)
  }

  // ----- gathering and sorting

  datatype Ranked = Ranked(depth: nat, step: Step)

  function StepsOf(ranked: seq<Ranked>): (steps: seq<Step>)
    ensures |steps| == |ranked| && forall i :: 0 <= i < |ranked| ==> steps[i] == ranked[i].step
  {
    seq(|ranked|, i requires 0 <= i < |ranked| => ranked[i].step)
  }

  function KindsAt(ranked: seq<Ranked>, id: EntryId): seq<StepKind> { KindsOf(StepsOf(ranked), id) }

  lemma KindsAtMore(ranked: seq<Ranked>, more: Ranked, id: EntryId)
    ensures KindsAt(ranked + [more], id) == KindsAt(ranked, id)
            + (if more.step.entry == id then [more.step.kind] else [])
  {
    assert StepsOf(ranked + [more]) == StepsOf(ranked) + [more.step];
    KindsOfMore(StepsOf(ranked), more.step, id);
  }

  lemma KindsAtInserted(ranked: seq<Ranked>, at: nat, more: Ranked, id: EntryId)
    requires at <= |ranked| && KindsAt(ranked, more.step.entry) == []
    ensures KindsAt(ranked[..at] + [more] + ranked[at..], id) ==
              KindsAt(ranked, id) + (if more.step.entry == id then [more.step.kind] else [])
  {
    hide KindsOf;
    var all := ranked[..at] + [more] + ranked[at..];
    var a, b := StepsOf(ranked[..at]), StepsOf(ranked[at..]);
    assert StepsOf(ranked) == a + b;
    assert StepsOf(all) == (a + [more.step]) + b;
    KindsOfAppend(a, b, id);
    KindsOfAppend(a + [more.step], b, id);
    KindsOfMore(a, more.step, id);
  }

  predicate InOrder(ranked: seq<Ranked>, descending: bool) {
    forall i, j :: 0 <= i < j < |ranked| ==>
      if descending then ranked[i].depth >= ranked[j].depth else ranked[i].depth <= ranked[j].depth
  }

  /** At most one step an entry. */
  ghost predicate Single(ranked: seq<Ranked>) { forall id :: |KindsAt(ranked, id)| <= 1 }

  method SortByDepth(ranked: seq<Ranked>, descending: bool) returns (sorted: seq<Ranked>)
    requires Single(ranked)
    ensures InOrder(sorted, descending)
    ensures forall x :: x in sorted <==> x in ranked
    ensures forall id :: KindsAt(sorted, id) == KindsAt(ranked, id)
  {
    hide KindsAt, StepsOf;
    sorted := [];
    assert ranked[..0] == [];
    for n := 0 to |ranked|
      invariant InOrder(sorted, descending)
      invariant forall x :: x in sorted <==> x in ranked[..n]
      invariant forall id :: KindsAt(sorted, id) == KindsAt(ranked[..n], id)
    {
      var x := ranked[n];
      var at := |sorted|;
      while at > 0 && (if descending then sorted[at - 1].depth < x.depth else sorted[at - 1].depth > x.depth)
        invariant 0 <= at <= |sorted|
        invariant forall i :: at <= i < |sorted| ==> if descending then sorted[i].depth < x.depth
                                                     else sorted[i].depth > x.depth
      {
        at := at - 1;
      }
      assert ranked[..n + 1] == ranked[..n] + [x];
      NextIsNew(ranked, n);
      forall id ensures KindsAt(sorted[..at] + [x] + sorted[at..], id) == KindsAt(ranked[..n + 1], id) {
        KindsAtInserted(sorted, at, x, id);
        KindsAtMore(ranked[..n], x, id);
      }
      sorted := sorted[..at] + [x] + sorted[at..];
    }
    assert ranked[..|ranked|] == ranked;
  }

  lemma NextIsNew(ranked: seq<Ranked>, n: nat)
    requires Single(ranked) && n < |ranked|
    ensures KindsAt(ranked[..n], ranked[n].step.entry) == []
  {
    var id := ranked[n].step.entry;
    assert ranked == ranked[..n + 1] + ranked[n + 1..];
    assert StepsOf(ranked) == StepsOf(ranked[..n + 1]) + StepsOf(ranked[n + 1..]);
    KindsOfAppend(StepsOf(ranked[..n + 1]), StepsOf(ranked[n + 1..]), id);
    assert ranked[..n + 1] == ranked[..n] + [ranked[n]];
    KindsAtMore(ranked[..n], ranked[n], id);
    assert |KindsAt(ranked, id)| <= 1;
  }

  // ----- the diff

  /** The five step lists of one diff. */
  datatype Lists = Lists(
    disposals: seq<Ranked>, rebinds: seq<Ranked>, swaps: seq<Ranked>, restates: seq<Ranked>, creations: seq<Ranked>)

  function KindsIn(lists: Lists, id: EntryId): seq<StepKind> {
    KindsAt(lists.disposals, id) + KindsAt(lists.rebinds, id) + KindsAt(lists.swaps, id)
    + KindsAt(lists.restates, id) + KindsAt(lists.creations, id)
  }

  ghost predicate InPhase(was: Doc, now: Doc, ranked: seq<Ranked>, phase: nat) {
    forall x :: x in ranked ==>
      Phase(x.step.kind) == phase && (phase in {0, 1, 4} ==> x.depth == Level(was, now, x.step))
  }

  ghost predicate Phased(was: Doc, now: Doc, lists: Lists) {
    && InPhase(was, now, lists.disposals, 0) && InPhase(was, now, lists.rebinds, 1) && InPhase(was, now, lists.swaps, 2)
    && InPhase(was, now, lists.restates, 3) && InPhase(was, now, lists.creations, 4)
  }

  /** The lists hold exactly the steps of the entries gone through. */
  ghost predicate Gathered(was: Doc, now: Doc, attested: Attestation, lists: Lists, done: set<EntryId>) {
    && Phased(was, now, lists)
    && (forall id :: KindsIn(lists, id) == if id in done then Kinds(was, now, attested, id) else [])
  }

  /** An entry of both documents that no step touches. */
  ghost predicate LeftAlone(was: Doc, now: Doc, attested: Attestation, id: EntryId) {
    Stands(was, id) && Stands(now, id) && Kinds(was, now, attested, id) == []
  }

  lemma NothingIn(lists: Lists, id: EntryId)
    requires KindsIn(lists, id) == []
    ensures KindsAt(lists.disposals, id) == [] && KindsAt(lists.rebinds, id) == [] && KindsAt(lists.swaps, id) == []
    ensures KindsAt(lists.restates, id) == [] && KindsAt(lists.creations, id) == []
  {}

  /** Pushing one entry's steps onto the lists they belong to. */
  lemma GatherMore(was: Doc, now: Doc, attested: Attestation, lists: Lists, done: set<EntryId>, id: EntryId,
                   more: Lists)
    requires Gathered(was, now, attested, lists, done) && id !in done && Phased(was, now, more)
    requires forall x :: x != id ==> KindsIn(more, x) == KindsIn(lists, x)
    requires KindsIn(more, id) == Kinds(was, now, attested, id)
    ensures Gathered(was, now, attested, more, done + {id})
  {}

  method PushDisposal(ghost was: Doc, ghost now: Doc, lists: Lists, x: Ranked) returns (more: Lists)
    requires Phased(was, now, lists) && KindsIn(lists, x.step.entry) == []
    requires Phase(x.step.kind) == 0 && x.depth == Level(was, now, x.step)
    ensures Phased(was, now, more)
    ensures forall id :: KindsIn(more, id) == KindsIn(lists, id) + if id == x.step.entry then [x.step.kind] else []
  {
    hide KindsAt, Level, Phase;
    more := lists.(disposals := lists.disposals + [x]);
    forall id ensures KindsIn(more, id) == KindsIn(lists, id) + if id == x.step.entry then [x.step.kind] else [] {
      KindsAtMore(lists.disposals, x, id);
    }
  }

  method PushRebind(ghost was: Doc, ghost now: Doc, lists: Lists, x: Ranked) returns (more: Lists)
    requires Phased(was, now, lists) && KindsIn(lists, x.step.entry) == []
    requires Phase(x.step.kind) == 1 && x.depth == Level(was, now, x.step)
    ensures Phased(was, now, more)
    ensures KindsAt(more.creations, x.step.entry) == KindsAt(lists.creations, x.step.entry)
    ensures forall id :: KindsIn(more, id) == KindsIn(lists, id) + if id == x.step.entry then [x.step.kind] else []
  {
    hide KindsAt, Level, Phase;
    more := lists.(rebinds := lists.rebinds + [x]);
    forall id ensures KindsIn(more, id) == KindsIn(lists, id) + if id == x.step.entry then [x.step.kind] else [] {
      KindsAtMore(lists.rebinds, x, id);
    }
  }

  method PushSwap(ghost was: Doc, ghost now: Doc, lists: Lists, x: Ranked) returns (more: Lists)
    requires Phased(was, now, lists) && KindsIn(lists, x.step.entry) == []
    requires Phase(x.step.kind) == 2
    ensures Phased(was, now, more)
    ensures forall id :: KindsIn(more, id) == KindsIn(lists, id) + if id == x.step.entry then [x.step.kind] else []
  {
    hide KindsAt, Level, Phase;
    more := lists.(swaps := lists.swaps + [x]);
    forall id ensures KindsIn(more, id) == KindsIn(lists, id) + if id == x.step.entry then [x.step.kind] else [] {
      KindsAtMore(lists.swaps, x, id);
    }
  }

  method PushRestate(ghost was: Doc, ghost now: Doc, lists: Lists, x: Ranked) returns (more: Lists)
    requires Phased(was, now, lists) && KindsAt(lists.creations, x.step.entry) == []
    requires Phase(x.step.kind) == 3
    ensures Phased(was, now, more)
    ensures forall id :: KindsIn(more, id) == KindsIn(lists, id) + if id == x.step.entry then [x.step.kind] else []
  {
    hide KindsAt, Level, Phase;
    more := lists.(restates := lists.restates + [x]);
    forall id ensures KindsIn(more, id) == KindsIn(lists, id) + if id == x.step.entry then [x.step.kind] else [] {
      KindsAtMore(lists.restates, x, id);
    }
  }

  method PushCreation(ghost was: Doc, ghost now: Doc, lists: Lists, x: Ranked) returns (more: Lists)
    requires Phased(was, now, lists) && KindsIn(lists, x.step.entry) == []
    requires Phase(x.step.kind) == 4 && x.depth == Level(was, now, x.step)
    ensures Phased(was, now, more)
    ensures forall id :: KindsIn(more, id) == KindsIn(lists, id) + if id == x.step.entry then [x.step.kind] else []
  {
    hide KindsAt, Level, Phase;
    more := lists.(creations := lists.creations + [x]);
    forall id ensures KindsIn(more, id) == KindsIn(lists, id) + if id == x.step.entry then [x.step.kind] else [] {
      KindsAtMore(lists.creations, x, id);
    }
  }

  /** Files one entry of the desired document under the steps it needs. */
  method File(before: EntryIndex, after: EntryIndex, attested: Attestation, entry: Entry, lists: Lists,
              ghost done: set<EntryId>)
      returns (more: Lists, alone: bool)
    requires before.Valid() && after.Valid()
    requires Stands(after.doc, entry.id) && after.doc[entry.id] == entry && entry.id !in done
    requires Gathered(before.doc, after.doc, attested, lists, done)
    ensures Gathered(before.doc, after.doc, attested, more, done + {entry.id})
    ensures alone <==> LeftAlone(before.doc, after.doc, attested, entry.id)
  {
    hide KindsIn, Phased, InPhase, Records, Rooted, Stands, Disabled, Environment, Gathered;
    ghost var was, now := before.doc, after.doc;
    var id := entry.id;
    GatheredNot(was, now, attested, lists, done, id);
    var disabled := after.EffectivelyDisabled(id);
    var depth := after.DepthOf(id);
    var previous := before.Get(id);
    more, alone := lists, false;
    if previous.None? {
      more := PushCreation(was, now, lists, Ranked(depth, Step(id, if !disabled then Create else Track)));
    } else {
      var wasDisabled := before.EffectivelyDisabled(id);
      match (!wasDisabled, !disabled) {
        case (true, false) => more := PushDisposal(was, now, lists, Ranked(depth, Step(id, Disable)));
        case (false, true) => more := PushCreation(was, now, lists, Ranked(depth, Step(id, Enable)));
        case (false, false) => alone := true;
        case (true, true) =>
          if previous.value.plugin != entry.plugin {
            more := PushSwap(was, now, lists, Ranked(0, Step(id, Replace)));
          } else {
            more, alone := FileKept(before, after, attested, previous.value, entry, depth, lists);
          }
      }
    }
    GatherMore(was, now, attested, lists, done, id, more);
  }

  /** An entry enabled in both documents under one plugin: rebound, restated, both, or left alone. */
  method FileKept(before: EntryIndex, after: EntryIndex, attested: Attestation, previous: Entry, entry: Entry,
                  depth: nat,
                  lists: Lists)
      returns (more: Lists, alone: bool)
    requires before.Valid() && after.Valid()
    requires Stands(before.doc, entry.id) && before.doc[entry.id] == previous
    requires Stands(after.doc, entry.id) && after.doc[entry.id] == entry && depth == Depth(after.doc, entry.id)
    requires !Disabled(before.doc, entry.id) && !Disabled(after.doc, entry.id) && previous.plugin == entry.plugin
    requires Phased(before.doc, after.doc, lists) && KindsIn(lists, entry.id) == []
    ensures Phased(before.doc, after.doc, more)
    ensures forall x :: x != entry.id ==> KindsIn(more, x) == KindsIn(lists, x)
    ensures KindsIn(more, entry.id) == Kinds(before.doc, after.doc, attested, entry.id)
    ensures alone <==> Kinds(before.doc, after.doc, attested, entry.id) == []
  {
    hide KindsIn, KindsAt, Phased, InPhase, Records, Rooted, Stands, Disabled, Environment, Kinds;
    ghost var was, now := before.doc, after.doc;
    var id := entry.id;
    KeptKinds(was, now, attested, id);
    var environment := before.EnvironmentOf(id);
    var desired := after.EnvironmentOf(id);
    var rebind := environment != desired;
    var restate := match attested case Some(eq) => !eq(previous.config, entry.config) case None => true;
    more := lists;
    NothingIn(lists, id);
    if rebind {
      more := PushRebind(was, now, more, Ranked(depth, Step(id, Rebind)));
    }
    if restate {
      more := PushRestate(was, now, more, Ranked(0, Step(id, Restate)));
    }
    alone := !rebind && !restate;
  }

  lemma KeptKinds(was: Doc, now: Doc, attested: Attestation, id: EntryId)
    requires Stands(was, id) && Stands(now, id) && was[id].plugin == now[id].plugin
    requires !Disabled(was, id) && !Disabled(now, id)
    ensures Kinds(was, now, attested, id) ==
              (if Environment(was, id) != Environment(now, id) then [Rebind] else [])
              + (if Restates(attested, was[id].config, now[id].config) then [Restate] else [])
  {}

  /** Files one entry that left the document. */
  method FileGone(before: EntryIndex, ghost now: Doc, attested: Attestation, id: EntryId, lists: Lists,
                  ghost done: set<EntryId>)
      returns (more: Lists)
    requires before.Valid() && Stands(before.doc, id) && id !in now && id !in done
    requires Gathered(before.doc, now, attested, lists, done)
    ensures Gathered(before.doc, now, attested, more, done + {id})
  {
    hide KindsAt, KindsIn, Phased, InPhase, Rooted, Stands, Gathered, Kinds;
    GatheredNot(before.doc, now, attested, lists, done, id);
    RemovedKinds(before.doc, now, attested, id);
    more := PushDisposal(before.doc, now, lists, Ranked(before.DepthOf(id), Step(id, Remove)));
    GatherMore(before.doc, now, attested, lists, done, id, more);
  }

  /** Files the entries of the applied document that left the desired one. */
  method FileRemoved(before: EntryIndex, after: EntryIndex, attested: Attestation, lists: Lists,
                     ghost standing: set<EntryId>)
      returns (more: Lists)
    requires before.Valid() && after.Valid()
    requires Gathered(before.doc, after.doc, attested, lists, standing)
    requires forall id :: id in standing <==> Stands(after.doc, id)
    ensures Phased(before.doc, after.doc, more)
    ensures forall id :: KindsIn(more, id) == Kinds(before.doc, after.doc, attested, id)
  {
    hide KindsAt, KindsIn, Phased, InPhase, Records, Rooted, Stands, Disabled, Environment, Gathered, Kinds, Distinct;
    hide EntryIndex.Valid, Ids;
    ghost var was, now := before.doc, after.doc;
    DocHolds(after);
    DocHolds(before);
    IdsListed(after);
    var desired := Ids(after.entries);
    ghost var done := standing;
    var kept := before.Kept();
    more := lists;
    for k := 0 to |kept|
      invariant Gathered(was, now, attested, more, done)
      invariant forall id :: id in done <==>
                  Stands(now, id) || (id !in now && exists i :: 0 <= i < k && kept[i].id == id)
    {
      var entry := kept[k];
      NextKept(kept, k);
      StandsWithin(now, entry.id);
      if entry.id !in desired {
        more := FileGone(before, now, attested, entry.id, more, done);
        done := done + {entry.id};
      }
    }
    KeptIds(was, kept);
    AllGathered(was, now, attested, more, done);
  }

  lemma GatheredNot(was: Doc, now: Doc, attested: Attestation, lists: Lists, done: set<EntryId>, id: EntryId)
    requires Gathered(was, now, attested, lists, done) && id !in done
    ensures Phased(was, now, lists) && KindsIn(lists, id) == []
  {}

  lemma RemovedKinds(was: Doc, now: Doc, attested: Attestation, id: EntryId)
    requires Stands(was, id) && id !in now
    ensures Kinds(was, now, attested, id) == [Remove]
  {}

  lemma AllGathered(was: Doc, now: Doc, attested: Attestation, lists: Lists, done: set<EntryId>)
    requires Gathered(was, now, attested, lists, done)
    requires forall id :: Stands(now, id) || (Stands(was, id) && id !in now) ==> id in done
    ensures Phased(was, now, lists) && forall id :: KindsIn(lists, id) == Kinds(was, now, attested, id)
  {}

  lemma StandsWithin(m: Doc, id: EntryId)
    ensures Stands(m, id) ==> id in m
  {}

  /** Files every entry of the desired document. */
  method FileAll(before: EntryIndex, after: EntryIndex, attested: Attestation)
      returns (lists: Lists, untouched: seq<EntryId>)
    requires before.Valid() && after.Valid()
    ensures Phased(before.doc, after.doc, lists)
    ensures forall id :: KindsIn(lists, id) == Kinds(before.doc, after.doc, attested, id)
    ensures forall id :: id in untouched <==> LeftAlone(before.doc, after.doc, attested, id)
  {
    hide KindsAt, KindsIn, Records, Rooted, Stands, Disabled, Environment, Gathered, Phased, Kinds, LeftAlone, Distinct;
    hide EntryIndex.Valid;
    ghost var was, now := before.doc, after.doc;
    var kept := after.Kept();
    lists, untouched := Lists([], [], [], [], []), [];
    ghost var done: set<EntryId> := {};
    NoneGathered(was, now, attested);
    for k := 0 to |kept|
      invariant Gathered(was, now, attested, lists, done)
      invariant forall id :: id in done <==> exists i :: 0 <= i < k && kept[i].id == id
      invariant forall id :: id in untouched <==> id in done && LeftAlone(was, now, attested, id)
    {
      NextKept(kept, k);
      var more, alone := File(before, after, attested, kept[k], lists, done);
      if alone { untouched := untouched + [kept[k].id]; }
      lists := more;
      done := done + {kept[k].id};
    }
    DocHolds(after);
    KeptIds(now, kept);
    forall id | LeftAlone(was, now, attested, id) ensures id in done { AloneStands(was, now, attested, id); }
    lists := FileRemoved(before, after, attested, lists, done);
  }

  function Ids(entries: seq<Entry>): set<EntryId> { set i | 0 <= i < |entries| :: entries[i].id }

  /** The ids listed are the document's. */
  lemma IdsListed(index: EntryIndex)
    requires index.Valid()
    ensures Ids(index.entries) == index.doc.Keys
  {
    RecordsHold(index.entries);
    forall id | id in index.doc ensures id in Ids(index.entries) { assert index.doc[id] in index.entries; }
  }

  lemma DocHolds(index: EntryIndex)
    requires index.Valid()
    ensures forall id :: id in index.doc ==> index.doc[id].id == id
  {
    RecordsHold(index.entries);
  }

  lemma AloneStands(was: Doc, now: Doc, attested: Attestation, id: EntryId)
    requires LeftAlone(was, now, attested, id)
    ensures Stands(now, id)
  {}

  lemma NextKept(kept: seq<Entry>, k: nat)
    requires Distinct(kept) && k < |kept|
    ensures kept[k] in kept && forall i :: 0 <= i < k ==> kept[i].id != kept[k].id
  {}

  /** Diffs the applied document (none before the first reconcile) against the desired one. */
  method MakePlan(applied: Option<seq<Entry>>, desired: seq<Entry>, attested: Attestation) returns (plan: Plan)
    ensures var was, now := Records(applied.UnwrapOr([])), Records(desired);
            && IsPlan(was, now, attested, plan.steps)
            && (plan.faults == [] <==> Distinct(desired) && Sound(now))
            && (forall id :: id in now && !Stands(now, id) ==> id in Faulted(plan.faults))
            && (forall id :: id in plan.untouched <==> LeftAlone(was, now, attested, id))
  {
    hide KindsAt, KindsIn, Records, Rooted, Stands, Disabled, Environment, Phased, Kinds;
    var after := new EntryIndex(desired);
    var before := new EntryIndex(applied.UnwrapOr([]));
    var lists, untouched := FileAll(before, after, attested);
    var steps := Sorted(before.doc, after.doc, attested, lists);
    plan := Plan(steps, after.faults, untouched);
  }

  lemma KeptIds(m: Doc, kept: seq<Entry>)
    requires forall id :: id in m ==> m[id].id == id
    requires forall entry :: entry in kept <==> Stands(m, entry.id) && m[entry.id] == entry
    ensures forall id :: Stands(m, id) <==> exists i :: 0 <= i < |kept| && kept[i].id == id
  {
    forall id ensures Stands(m, id) <==> exists i :: 0 <= i < |kept| && kept[i].id == id {
      if Stands(m, id) { assert m[id] in kept; }
      if i :| 0 <= i < |kept| && kept[i].id == id { assert kept[i] in kept; }
    }
  }

  lemma NoneGathered(was: Doc, now: Doc, attested: Attestation)
    ensures Gathered(was, now, attested, Lists([], [], [], [], []), {})
  {}

  lemma {:induction false} KindsInPhase(was: Doc, now: Doc, ranked: seq<Ranked>, phase: nat, id: EntryId)
    requires InPhase(was, now, ranked, phase)
    ensures forall kind :: kind in KindsAt(ranked, id) ==> Phase(kind) == phase
  {
    if ranked != [] {
      var n := |ranked| - 1;
      KindsInPhase(was, now, ranked[..n], phase, id);
      assert ranked == ranked[..n] + [ranked[n]];
      KindsAtMore(ranked[..n], ranked[n], id);
    }
  }

  /** One entry has at most one step in each list. */
  lemma KindsAreSingle(was: Doc, now: Doc, attested: Attestation, lists: Lists, id: EntryId)
    requires Phased(was, now, lists) && KindsIn(lists, id) == Kinds(was, now, attested, id)
    ensures |KindsAt(lists.disposals, id)| <= 1 && |KindsAt(lists.rebinds, id)| <= 1
            && |KindsAt(lists.creations, id)| <= 1
  {
    hide KindsAt, Rooted, Stands, Disabled, Environment;
    var kinds := Kinds(was, now, attested, id);
    assert |kinds| <= 2 && (|kinds| == 2 ==> kinds == [Rebind, Restate]);
    OneOf(was, now, lists.disposals, 0, kinds, id);
    OneOf(was, now, lists.rebinds, 1, kinds, id);
    OneOf(was, now, lists.creations, 4, kinds, id);
  }

  lemma OneOf(was: Doc, now: Doc, ranked: seq<Ranked>, phase: nat, kinds: seq<StepKind>, id: EntryId)
    requires InPhase(was, now, ranked, phase)
    requires |kinds| <= 2 && (|kinds| == 2 ==> kinds == [Rebind, Restate])
    ensures |KindsAt(ranked, id)| == 2 ==> KindsAt(ranked, id) != kinds
  {
    KindsInPhase(was, now, ranked, phase, id);
    var own := KindsAt(ranked, id);
    if |own| == 2 { assert own[0] in own && own[1] in own; }
  }

  lemma OrderedList(was: Doc, now: Doc, ranked: seq<Ranked>, phase: nat)
    requires InPhase(was, now, ranked, phase) && phase <= 4
    requires phase in {0, 1, 4} ==> InOrder(ranked, phase == 0)
    ensures Ordered(was, now, StepsOf(ranked))
    ensures forall i :: 0 <= i < |ranked| ==> Phase(StepsOf(ranked)[i].kind) == phase
  {
    forall i | 0 <= i < |ranked|
      ensures Phase(StepsOf(ranked)[i].kind) == phase
      ensures phase in {0, 1, 4} ==> ranked[i].depth == Level(was, now, StepsOf(ranked)[i])
    {
      assert ranked[i] in ranked;
    }
  }

  lemma OrderedJoin(was: Doc, now: Doc, a: seq<Step>, b: seq<Step>, phase: nat)
    requires Ordered(was, now, a) && Ordered(was, now, b)
    requires forall i :: 0 <= i < |a| ==> Phase(a[i].kind) < phase
    requires forall i :: 0 <= i < |b| ==> Phase(b[i].kind) == phase
    ensures Ordered(was, now, a + b) && forall i :: 0 <= i < |a + b| ==> Phase((a + b)[i].kind) <= phase
  {}

  lemma SameMembersInPhase(was: Doc, now: Doc, a: seq<Ranked>, b: seq<Ranked>, phase: nat)
    requires InPhase(was, now, a, phase) && forall x :: x in b <==> x in a
    ensures InPhase(was, now, b, phase)
  {}

  /** The lists sorted and put end to end. */
  method Sorted(ghost was: Doc, ghost now: Doc, ghost attested: Attestation, lists: Lists) returns (steps: seq<Step>)
    requires Phased(was, now, lists)
    requires forall id :: KindsIn(lists, id) == Kinds(was, now, attested, id)
    ensures IsPlan(was, now, attested, steps)
  {
    hide KindsAt, Rooted, Stands, Disabled, Environment, Kinds, KindsOf, InPhase, Ordered, Level, InOrder;
    forall id
      ensures |KindsAt(lists.disposals, id)| <= 1 && |KindsAt(lists.rebinds, id)| <= 1
              && |KindsAt(lists.creations, id)| <= 1
    {
      KindsAreSingle(was, now, attested, lists, id);
    }
    var disposals := SortByDepth(lists.disposals, true);
    var rebinds := SortByDepth(lists.rebinds, false);
    var creations := SortByDepth(lists.creations, false);
    var a, b, c, d, e := StepsOf(disposals), StepsOf(rebinds), StepsOf(lists.swaps), StepsOf(lists.restates),
      StepsOf(creations);
    steps := a + b + c + d + e;
    forall id ensures KindsOf(steps, id) == Kinds(was, now, attested, id) {
      KindsOfAppend(a, b, id);
      KindsOfAppend(a + b, c, id);
      KindsOfAppend(a + b + c, d, id);
      KindsOfAppend(a + b + c + d, e, id);
      FiveKinds(lists, disposals, rebinds, creations, id);
    }
    SameMembersInPhase(was, now, lists.disposals, disposals, 0);
    SameMembersInPhase(was, now, lists.rebinds, rebinds, 1);
    SameMembersInPhase(was, now, lists.creations, creations, 4);
    OrderedList(was, now, disposals, 0);
    OrderedList(was, now, rebinds, 1);
    OrderedList(was, now, lists.swaps, 2);
    OrderedList(was, now, lists.restates, 3);
    OrderedList(was, now, creations, 4);
    OrderedJoin(was, now, a, b, 1);
    OrderedJoin(was, now, a + b, c, 2);
    OrderedJoin(was, now, a + b + c, d, 3);
    OrderedJoin(was, now, a + b + c + d, e, 4);
  }

  lemma FiveKinds(lists: Lists, disposals: seq<Ranked>, rebinds: seq<Ranked>, creations: seq<Ranked>, id: EntryId)
    requires KindsAt(disposals, id) == KindsAt(lists.disposals, id)
             && KindsAt(rebinds, id) == KindsAt(lists.rebinds, id)
    requires KindsAt(creations, id) == KindsAt(lists.creations, id)
    ensures KindsOf(StepsOf(disposals), id) + KindsOf(StepsOf(rebinds), id) + KindsOf(StepsOf(lists.swaps), id)
            + KindsOf(StepsOf(lists.restates), id) + KindsOf(StepsOf(creations), id) == KindsIn(lists, id)
  {}
}
