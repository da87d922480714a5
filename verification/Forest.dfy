// The entry tree over one document: which entries stand, how deep, and what
// their ancestry says.

module Forest {
  import opened Profiles
  import opened Sequences

  // ----- ancestry over records

  /** The parent chain from `id` reaches a parentless entry in exactly `k` steps. */
  predicate Rooted(m: Doc, id: EntryId, k: nat)
    decreases k
  {
    id in m && match m[id].parent
               case None => k == 0
               case Some(parent) => k > 0 && Rooted(m, parent, k - 1)
  }

  ghost predicate Stands(m: Doc, id: EntryId) { exists k: nat :: Rooted(m, id, k) }

  /** Every entry of the document stands: it charts without faults. */
  ghost predicate Sound(m: Doc) {
    && (forall id :: id in m ==> m[id].id == id)
    && (forall id :: id in m ==> Stands(m, id))
  }

  lemma {:induction false} RootedOnce(m: Doc, id: EntryId, j: nat, k: nat)
    requires Rooted(m, id, j) && Rooted(m, id, k)
    ensures j == k
    decreases j
  {
    if j > 0 { RootedOnce(m, m[id].parent.value, j - 1, k - 1); }
  }

  ghost function Depth(m: Doc, id: EntryId): (k: nat)
    requires Stands(m, id)
    ensures Rooted(m, id, k)
  {
    var k: nat :| Rooted(m, id, k); k
  }

  lemma DepthIs(m: Doc, id: EntryId, k: nat)
    requires Rooted(m, id, k)
    ensures Stands(m, id) && Depth(m, id) == k
  {
    RootedOnce(m, id, k, Depth(m, id));
  }

  lemma ParentStands(m: Doc, id: EntryId)
    requires Stands(m, id) && m[id].parent.Some?
    ensures Stands(m, m[id].parent.value) && Depth(m, m[id].parent.value) + 1 == Depth(m, id)
  {
    DepthIs(m, m[id].parent.value, Depth(m, id) - 1);
  }

  lemma ChildStands(m: Doc, id: EntryId)
    requires id in m && m[id].parent.Some? && Stands(m, m[id].parent.value)
    ensures Stands(m, id) && Depth(m, id) == Depth(m, m[id].parent.value) + 1
  {
    DepthIs(m, id, Depth(m, m[id].parent.value) + 1);
  }

  /** Records whose parents all have parents among them never stand. */
  lemma {:induction false} NeverRooted(m: Doc, lost: set<EntryId>, id: EntryId, k: nat)
    requires id in lost
    requires forall x :: x in lost && x in m && Stands(m, x) ==> m[x].parent.Some? && m[x].parent.value in lost
    ensures !Rooted(m, id, k)
    decreases k
  {
    if Rooted(m, id, k) {
      assert Stands(m, id);
      NeverRooted(m, lost, m[id].parent.value, k - 1);
    }
  }

  /** Whether the entry or any ancestor is disabled. */
  predicate DisabledWithin(m: Doc, id: EntryId, k: nat)
    requires Rooted(m, id, k)
    decreases k
  {
    m[id].disabled || (k > 0 && DisabledWithin(m, m[id].parent.value, k - 1))
  }

  ghost predicate Disabled(m: Doc, id: EntryId)
    requires Stands(m, id)
  {
    DisabledWithin(m, id, Depth(m, id))
  }

  /** Every ancestor's identity and isolation, from the root down to the entry's own. */
  function EnvironmentWithin(m: Doc, id: EntryId, k: nat): seq<(EntryId, seq<Binding>)>
    requires Rooted(m, id, k)
    decreases k
  {
    (if k == 0 then [] else EnvironmentWithin(m, m[id].parent.value, k - 1)) + [(m[id].id, m[id].isolation)]
  }

  ghost function Environment(m: Doc, id: EntryId): seq<(EntryId, seq<Binding>)>
    requires Stands(m, id)
  {
    EnvironmentWithin(m, id, Depth(m, id))
  }

  // ----- the index

  datatype Reason =
    | Duplicate | Missing(ancestor: EntryId) | Cyclic(parent: EntryId)
    | DependencyCycle
    | NotInDocument | NoRuntime | NoParentContext | NoLane | LaneFailed | DisposeFailed
    | Divergence(message: string)

  datatype Fault = Fault(entry: EntryId, reason: Reason)

  /** The ids a list of faults names, as often as it names them. */
  ghost function Faulted(faults: seq<Fault>): multiset<EntryId> {
    if faults == [] then multiset{} else Faulted(faults[..|faults| - 1]) + multiset{faults[|faults| - 1].entry}
  }

  lemma FaultedMore(faults: seq<Fault>, more: Fault)
    ensures Faulted(faults + [more]) == Faulted(faults) + multiset{more.entry}
  {
    assert (faults + [more])[..|faults|] == faults;
  }

  lemma NoneFaulted(before: seq<Fault>, after: seq<Fault>, lost: set<EntryId>)
    requires before <= after && Faulted(after) == Faulted(before) + multiset(lost)
    ensures after == [] <==> before == [] && lost == {}
    ensures forall id :: id in lost ==> id in Faulted(after)
  {
    assert after != [] ==> after[|after| - 1].entry in Faulted(after);
    forall id | id in lost ensures id in Faulted(after) { assert id in multiset(lost); }
  }

  /** Consecutive ancestors, the nearest first. */
  ghost predicate Ascends(m: Doc, trail: seq<EntryId>) {
    && |trail| > 0
    && (forall i, j :: 0 <= i < j < |trail| ==> trail[i] != trail[j])
    && (forall i :: 0 <= i < |trail| - 1 ==>
          trail[i] in m && m[trail[i]].parent == Some(trail[i + 1]))
  }

  lemma LostTrail(m: Doc, trail: seq<EntryId>)
    requires Ascends(m, trail) && !Stands(m, trail[|trail| - 1])
    ensures forall x :: x in trail ==> !Stands(m, x)
  {
    var i := |trail| - 1;
    while i > 0
      invariant 0 <= i < |trail| && forall j :: i <= j < |trail| ==> !Stands(m, trail[j])
    {
      i := i - 1;
      assert m[trail[i]].parent == Some(trail[i + 1]);
      if Stands(m, trail[i]) { ParentStands(m, trail[i]); }
    }
  }

  lemma LoopedTrail(m: Doc, trail: seq<EntryId>)
    requires Ascends(m, trail)
    requires trail[|trail| - 1] in m && m[trail[|trail| - 1]].parent.Some?
             && m[trail[|trail| - 1]].parent.value in trail
    ensures forall x :: x in trail ==> !Stands(m, x)
  {
    var lost := set x | x in trail;
    forall x | x in lost ensures x in m && m[x].parent.Some? && m[x].parent.value in lost {
      var i :| 0 <= i < |trail| && trail[i] == x;
      if i < |trail| - 1 { assert trail[i + 1] in trail; }
    }
    forall x | x in trail ensures !Stands(m, x) {
      forall k: nat ensures !Rooted(m, x, k) { NeverRooted(m, lost, x, k); }
    }
  }

  /** What charting keeps: settled ids stand at their depth, dropped ids never stand. */
  ghost predicate Charting(m: Doc, byId: map<EntryId, nat>, depth: map<EntryId, nat>) {
    && depth.Keys <= byId.Keys <= m.Keys
    && (forall id :: id in depth ==> Rooted(m, id, depth[id]))
    && (forall id :: id in m && id !in byId ==> !Stands(m, id))
  }

  lemma SettledOne(m: Doc, byId: map<EntryId, nat>, depth: map<EntryId, nat>, id: EntryId, k: nat)
    requires Charting(m, byId, depth) && id in byId
    requires match m[id].parent case None => k == 0 case Some(p) => k > 0 && Rooted(m, p, k - 1)
    ensures Rooted(m, id, k) && Charting(m, byId, depth[id := k])
  {}

  /** `depth` holds what `was` held and the topmost `steps` entries of a trail. */
  ghost predicate Grown(was: map<EntryId, nat>, depth: map<EntryId, nat>, trail: seq<EntryId>, steps: nat)
    requires steps <= |trail|
  {
    && (forall x :: x in depth ==> x in was || x in trail[|trail| - steps..])
    && (forall x :: x in was || x in trail[|trail| - steps..] ==> x in depth)
  }

  lemma GrownMore(was: map<EntryId, nat>, depth: map<EntryId, nat>, trail: seq<EntryId>, steps: nat, k: nat)
    requires steps < |trail| && Grown(was, depth, trail, steps)
    ensures Grown(was, depth[trail[|trail| - 1 - steps] := k], trail, steps + 1)
  {
    assert trail[|trail| - (steps + 1)..] == [trail[|trail| - 1 - steps]] + trail[|trail| - steps..];
  }

  lemma GrownNone(was: map<EntryId, nat>, trail: seq<EntryId>)
    ensures Grown(was, was, trail, 0)
  {}

  lemma GrownAll(was: map<EntryId, nat>, depth: map<EntryId, nat>, trail: seq<EntryId>)
    requires Grown(was, depth, trail, |trail|)
    ensures forall x :: x in depth <==> x in was || x in trail
  {
    assert trail[|trail| - |trail|..] == trail;
  }

  /** An entry whose parent, if any, is rooted one step less deep. */
  ghost predicate Based(m: Doc, id: EntryId, k: nat) {
    id in m && match m[id].parent
               case None => k == 0
               case Some(p) => k > 0 && Rooted(m, p, k - 1)
  }

  /** The next entry down a trail settles one deeper than its parent. */
  lemma SettledNext(m: Doc, byId: map<EntryId, nat>, depth: map<EntryId, nat>, trail: seq<EntryId>, steps: nat,
                    above: nat)
    requires Charting(m, byId, depth) && Ascends(m, trail) && steps < |trail| && trail[|trail| - 1 - steps] in byId
    requires steps > 0 ==> Rooted(m, trail[|trail| - steps], above + steps - 1)
    requires Based(m, trail[|trail| - 1], above)
    ensures var id := trail[|trail| - 1 - steps];
            Rooted(m, id, above + steps) && Charting(m, byId, depth[id := above + steps])
  {
    var id := trail[|trail| - 1 - steps];
    if steps > 0 { assert m[id].parent == Some(trail[|trail| - 1 - steps + 1]); }
    hide Charting, Ascends, Rooted;
    SettledOne(m, byId, depth, id, above + steps);
  }

  /** `byId` names the record of each id it holds. */
  ghost predicate Names(entries: seq<Entry>, byId: map<EntryId, nat>, m: Doc) {
    forall id :: id in byId ==> byId[id] < |entries| && id in m && entries[byId[id]] == m[id]
  }

  lemma Narrowed(entries: seq<Entry>, m: Doc, was: map<EntryId, nat>, depth: map<EntryId, nat>, gone: set<EntryId>)
    requires Names(entries, was, m) && Charting(m, was, depth)
    requires forall x :: x in gone ==> x !in depth && !Stands(m, x)
    ensures Names(entries, was - gone, m) && Charting(m, was - gone, depth)
  {}

  lemma NamesAt(entries: seq<Entry>, byId: map<EntryId, nat>, m: Doc, id: EntryId)
    requires Names(entries, byId, m) && id in byId
    ensures byId[id] < |entries| && id in m && entries[byId[id]] == m[id]
  {}

  lemma SoundWhenAllStand(entries: seq<Entry>, kept: set<EntryId>)
    requires forall id :: id in kept <==> Stands(Records(entries), id)
    ensures Records(entries).Keys - kept == {} <==> Sound(Records(entries))
    ensures forall id :: id in Records(entries) && !Stands(Records(entries), id) ==> id in Records(entries).Keys - kept
  {
    RecordsHold(entries);
    if Records(entries).Keys - kept == {} {
      forall id | id in Records(entries) ensures Stands(Records(entries), id) {
        assert id !in Records(entries).Keys - kept;
      }
    }
  }

  class EntryIndex {
    const entries: seq<Entry>
    ghost const doc: Doc
    var byId: map<EntryId, nat>
    var depth: map<EntryId, nat>
    var faults: seq<Fault>

    ghost predicate Indexed()
      reads this
    {
      && doc == Records(entries)
      && Names(entries, byId, doc)
    }

    /** The index is exact: it keeps the entries that stand, each at its depth. */
    ghost predicate Valid()
      reads this
    {
      && Indexed()
      && (forall id :: id in byId <==> Stands(doc, id))
      && depth.Keys == byId.Keys
      && (forall id :: id in depth ==> Rooted(doc, id, depth[id]))
    }

    constructor (entries: seq<Entry>)
      ensures this.entries == entries && Valid()
      ensures faults == [] <==> Distinct(entries) && Sound(Records(entries))
      ensures forall id :: id in Records(entries) && !Stands(Records(entries), id) ==> id in Faulted(faults)
    {
      this.entries, doc := entries, Records(entries);
      byId, depth, faults := map[], map[], [];
      new;
      hide Distinct, Records, Faulted, Sound, Stands, Rooted;
      NoRecords(entries);
      for position := 0 to |entries|
        invariant byId.Keys == Records(entries[..position]).Keys && Names(entries, byId, Records(entries[..position]))
                  && depth == map[]
        invariant faults == [] <==> Distinct(entries[..position])
      {
        RecordsMore(entries, position);
        var entry := entries[position];
        if entry.id in byId {
          faults := faults + [Fault(entry.id, Duplicate)];
        } else {
          byId := byId[entry.id := position];
        }
      }
      assert entries[..|entries|] == entries;
      ghost var twice := faults;
      Chart();
      NoneFaulted(twice, faults, doc.Keys - byId.Keys);
      SoundWhenAllStand(entries, byId.Keys);
    }

    /**
     * Walks every entry's ancestry once, recording depths and dropping entries
     * whose ancestry is missing, faulted, or cyclic, each faulted once.
     */
    method Chart()
      requires Indexed() && byId.Keys == doc.Keys && depth == map[]
      modifies this
      ensures Valid()
      ensures old(faults) <= faults && Faulted(faults) == Faulted(old(faults)) + multiset(doc.Keys - byId.Keys)
    {
      hide Rooted, Ascends, Records, Stands, Charting, Faulted, Names;
      Uncharted(doc, byId);
      ghost var gone: set<EntryId> := {};
      for k := 0 to |entries|
        invariant Indexed() && Charting(doc, byId, depth)
        invariant gone <= doc.Keys && byId.Keys == doc.Keys - gone
        invariant forall i :: 0 <= i < k ==> entries[i].id in gone || entries[i].id in depth
        invariant old(faults) <= faults && Faulted(faults) == Faulted(old(faults)) + multiset(gone)
      {
        var id := entries[k].id;
        HoldsEntry(k);
        if id in byId && id !in depth {
          var trail, broken := Climb(id);
          match broken {
            case Some(reason) => ghost var more := Drop(trail, reason); gone := gone + more;
            case None => Settle(trail);
          }
        }
      }
      ChartDone();
      assert doc.Keys - byId.Keys == gone;
    }

    lemma HoldsEntry(k: nat)
      requires Indexed() && k < |entries|
      ensures entries[k].id in doc
    {
      RecordsHold(entries);
    }

    lemma ChartDone()
      requires Indexed() && Charting(doc, byId, depth)
      requires forall i :: 0 <= i < |entries| ==> entries[i].id !in byId || entries[i].id in depth
      ensures Valid()
    {
      RecordsHold(entries);
      forall id | id in byId ensures id in depth { assert entries[byId[id]].id == id; }
      forall id ensures id in byId <==> Stands(doc, id) {
        if id !in doc { Absent(doc, id); }
      }
    }

    /** Climbs from `id` until a parentless or settled ancestor, or a break. */
    method Climb(id: EntryId) returns (trail: seq<EntryId>, broken: Option<Reason>)
      requires Indexed() && Charting(doc, byId, depth) && id in byId && id !in depth
      ensures Ascends(doc, trail) && id in trail
      ensures forall x :: x in trail ==> x !in depth
      ensures broken.Some? ==> forall x :: x in trail ==> !Stands(doc, x)
      ensures broken.None? ==> && (forall x :: x in trail ==> x in byId)
                               && var top := doc[trail[|trail| - 1]];
                                  top.parent.None? || top.parent.value in depth
    {
      hide Rooted, Records, Stands;
      trail := [id];
      ghost var below: set<EntryId> := {};
      while true
        invariant Ascends(doc, trail) && id in trail
        invariant forall x :: x in trail ==> x !in depth
        invariant below <= byId.Keys && forall x :: x in trail <==> x in below || x == trail[|trail| - 1]
        invariant trail[|trail| - 1] !in below
        decreases byId.Keys - below
      {
        var current := trail[|trail| - 1];
        if current !in byId {
          if current !in doc { Absent(doc, current); }
          LostTrail(doc, trail);
          return trail, Some(Missing(current));
        }
        match entries[byId[current]].parent {
          case None => return trail, None;
          case Some(parent) =>
            if parent in depth { return trail, None; }
            if parent in trail {
              LoopedTrail(doc, trail);
              return trail, Some(Cyclic(parent));
            }
            below := below + {current};
            trail := trail + [parent];
        }
      }
    }

    /** A broken trail is dropped, each entry still held faulted once. */
    method Drop(trail: seq<EntryId>, reason: Reason) returns (ghost gone: set<EntryId>)
      requires Indexed() && Charting(doc, byId, depth)
      requires forall x :: x in trail ==> x !in depth && !Stands(doc, x)
      modifies this`byId, this`faults
      ensures Indexed() && Charting(doc, byId, depth)
      ensures (forall x :: x in gone <==> x in trail && x in old(byId)) && byId == old(byId) - gone
      ensures old(faults) <= faults && Faulted(faults) == Faulted(old(faults)) + multiset(gone)
    {
      hide Rooted, Stands, Records, Charting, Names, Faulted;
      gone := {};
      for i := 0 to |trail|
        invariant (forall x :: x in gone <==> x in trail[..i] && x in old(byId)) && byId == old(byId) - gone
        invariant old(faults) <= faults && Faulted(faults) == Faulted(old(faults)) + multiset(gone)
      {
        var id := trail[i];
        assert trail[..i + 1] == trail[..i] + [id];
        if id in byId {
          FaultedMore(faults, Fault(id, reason));
          byId := byId - {id};
          faults := faults + [Fault(id, reason)];
          gone := gone + {id};
        }
      }
      assert trail[..|trail|] == trail;
      Narrowed(entries, doc, old(byId), depth, gone);
    }

    /** A trail that reached firm ground: its entries take their depths, the topmost first. */
    method Settle(trail: seq<EntryId>)
      requires Indexed() && Charting(doc, byId, depth) && Ascends(doc, trail)
      requires forall x :: x in trail ==> x in byId && x !in depth
      requires var top := doc[trail[|trail| - 1]]; top.parent.None? || top.parent.value in depth
      modifies this`depth
      ensures Indexed() && Charting(doc, byId, depth)
      ensures forall x :: x in depth <==> x in old(depth) || x in trail
    {
      assert |trail| > 0;
      hide Rooted, Charting, Records, Names, Stands, Ascends, Based;
      NamesAt(entries, byId, doc, trail[|trail| - 1]);
      var top := entries[byId[trail[|trail| - 1]]];
      var above := if top.parent.Some? then depth[top.parent.value] + 1 else 0;
      SettledBase(doc, byId, depth, trail[|trail| - 1]);
      SettleFrom(trail, above);
    }

    method SettleFrom(trail: seq<EntryId>, above: nat)
      requires Charting(doc, byId, depth) && Ascends(doc, trail)
      requires forall x :: x in trail ==> x in byId
      requires Based(doc, trail[|trail| - 1], above)
      modifies this`depth
      ensures Charting(doc, byId, depth)
      ensures forall x :: x in depth <==> x in old(depth) || x in trail
    {
      hide Rooted, Charting, Records, Names, Stands, Ascends, Grown, Based;
      GrownNone(depth, trail);
      for steps := 0 to |trail|
        invariant Charting(doc, byId, depth)
        invariant Grown(old(depth), depth, trail, steps)
        invariant steps > 0 ==> Rooted(doc, trail[|trail| - steps], above + steps - 1)
      {
        var id := trail[|trail| - 1 - steps];
        SettledNext(doc, byId, depth, trail, steps, above);
        GrownMore(old(depth), depth, trail, steps, above + steps);
        depth := depth[id := above + steps];
      }
      GrownAll(old(depth), depth, trail);
    }

    /** The valid entries in document order: a duplicated id yields only its winning occurrence. */
    method Kept() returns (kept: seq<Entry>)
      requires Valid()
      ensures Distinct(kept) && |kept| <= |entries|
      ensures forall entry :: entry in kept <==> Stands(doc, entry.id) && doc[entry.id] == entry
    {
      RecordsHold(entries);
      hide Records, Stands, Rooted;
      kept := [];
      for position := 0 to |entries|
        invariant Distinct(kept) && |kept| <= position
        invariant forall entry :: entry in kept <==>
                    entry.id in byId && doc[entry.id] == entry && byId[entry.id] < position
      {
        var entry := entries[position];
        if entry.id in byId && byId[entry.id] == position {
          forall earlier | earlier in kept ensures earlier.id != entry.id {}
          kept := kept + [entry];
        }
      }
      forall entry: Entry | Stands(doc, entry.id) && doc[entry.id] == entry ensures entry in kept {
        assert byId[entry.id] < |entries|;
      }
    }

    /** The record of a standing id. */
    function Get(id: EntryId): (entry: Option<Entry>)
      requires Valid()
      reads this
      ensures entry == if Stands(doc, id) then Some(doc[id]) else None
    {
      if id in byId then Some(entries[byId[id]]) else None
    }

    /** Depth from the root; 0 for root entries, and for ids the index dropped. */
    function DepthOf(id: EntryId): (k: nat)
      requires Valid()
      reads this
      ensures k == if Stands(doc, id) then Depth(doc, id) else 0
    {
      if id in depth then DepthIs(doc, id, depth[id]); depth[id] else 0
    }

    /** Whether the entry or any ancestor is disabled. */
    method EffectivelyDisabled(id: EntryId) returns (disabled: bool)
      requires Valid()
      ensures disabled <==> Stands(doc, id) && Disabled(doc, id)
    {
      hide Records;
      var current := Get(id);
      ghost var k := DepthOf(id);
      while current.Some?
        invariant current.Some? ==> exists at :: Rooted(doc, at, k) && current == Some(doc[at])
        invariant Stands(doc, id) && Disabled(doc, id) <==>
                    current.Some? && exists at ::
                      Rooted(doc, at, k) && current == Some(doc[at]) && DisabledWithin(doc, at, k)
        decreases if current.Some? then k + 1 else 0
      {
        var entry := current.value;
        if entry.disabled { return true; }
        ghost var at :| Rooted(doc, at, k) && entry == doc[at];
        current := if entry.parent.Some? then Get(entry.parent.value) else None;
        if k > 0 { DepthIs(doc, entry.parent.value, k - 1); k := k - 1; }
      }
      return false;
    }

    /** The entry's binding environment, gathered from the entry up and then turned round. */
    method EnvironmentOf(id: EntryId) returns (chain: seq<(EntryId, seq<Binding>)>)
      requires Valid()
      ensures chain == if Stands(doc, id) then Environment(doc, id) else []
    {
      hide Records, Reversed, EnvironmentWithin, Rooted, Stands, EntryIndex.Valid;
      chain := [];
      var current := Get(id);
      ghost var at, k := id, DepthOf(id);
      EnvironmentStart(doc, id, k);
      while current.Some?
        invariant current.Some? ==> at in doc && Rooted(doc, at, k) && current == Some(doc[at])
        invariant Stands(doc, id) ==>
                    Environment(doc, id) == (if current.Some? then EnvironmentWithin(doc, at, k) else [])
                    + Reversed(chain)
        invariant !Stands(doc, id) ==> current.None? && chain == []
        decreases if current.Some? then k + 1 else 0
      {
        var entry := current.value;
        EnvironmentUp(doc, at, k, chain);
        chain := chain + [(entry.id, entry.isolation)];
        current := if entry.parent.Some? then Get(entry.parent.value) else None;
        if k > 0 { at, k := entry.parent.value, k - 1; }
      }
      EnvironmentEnd(chain);
      chain := Reversed(chain);
    }
  }

  lemma EnvironmentStart(m: Doc, id: EntryId, k: nat)
    ensures Reversed<(EntryId, seq<Binding>)>([]) == []
    ensures Stands(m, id) ==> id in m && Rooted(m, id, Depth(m, id))
  {}

  /** One step up moves the nearest ancestor from the chain to come to the chain gathered. */
  lemma EnvironmentUp(m: Doc, at: EntryId, k: nat, chain: seq<(EntryId, seq<Binding>)>)
    requires Rooted(m, at, k)
    ensures at in m && (k == 0 <==> m[at].parent.None?)
    ensures k > 0 ==> var up := m[at].parent.value;
                      up in m && Rooted(m, up, k - 1) && Stands(m, up) && Depth(m, up) == k - 1
    ensures EnvironmentWithin(m, at, k) + Reversed(chain) ==
              (if k > 0 then EnvironmentWithin(m, m[at].parent.value, k - 1) else [])
              + Reversed(chain + [(m[at].id, m[at].isolation)])
  {
    var own := [(m[at].id, m[at].isolation)];
    ReversedJoin(chain, own);
    assert Reversed(own) == own;
    if k > 0 { DepthIs(m, m[at].parent.value, k - 1); }
  }

  lemma EnvironmentEnd(chain: seq<(EntryId, seq<Binding>)>)
    ensures [] + Reversed(chain) == Reversed(chain)
  {}

  lemma SettledBase(m: Doc, byId: map<EntryId, nat>, depth: map<EntryId, nat>, id: EntryId)
    requires Charting(m, byId, depth) && id in m && (m[id].parent.None? || m[id].parent.value in depth)
    ensures Based(m, id, if m[id].parent.Some? then depth[m[id].parent.value] + 1 else 0)
  {}

  lemma Uncharted(m: Doc, byId: map<EntryId, nat>)
    requires byId.Keys == m.Keys
    ensures Charting(m, byId, map[])
  {}

  lemma Absent(m: Doc, id: EntryId)
    requires id !in m
    ensures !Stands(m, id)
  {}

  lemma NoRecords(entries: seq<Entry>)
    ensures Records(entries[..0]) == map[] && Distinct(entries[..0])
  {}

  lemma RecordsMore(entries: seq<Entry>, n: nat)
    requires n < |entries|
    ensures var m := Records(entries[..n]);
            Records(entries[..n + 1]) == if entries[n].id in m then m else m[entries[n].id := entries[n]]
    ensures Distinct(entries[..n + 1]) <==> Distinct(entries[..n]) && entries[n].id !in Records(entries[..n])
  {
    assert entries[..n + 1][..n] == entries[..n];
    DistinctMore(entries[..n], entries[n]);
    assert entries[..n] + [entries[n]] == entries[..n + 1];
  }

  lemma DistinctMore(entries: seq<Entry>, more: Entry)
    ensures Distinct(entries + [more]) <==> Distinct(entries) && more.id !in Records(entries)
  {
    hide Records;
    RecordsHold(entries);
    var longer := entries + [more];
    assert longer[|entries|] == more && forall i :: 0 <= i < |entries| ==> longer[i] == entries[i];
    assert more.id in Records(entries) ==> exists i :: 0 <= i < |entries| && entries[i].id == more.id;
    if Distinct(longer) {
      forall i, j | 0 <= i < j < |entries| ensures entries[i].id != entries[j].id {
        assert longer[i].id != longer[j].id;
      }
    }
  }
}
