// Stored contexts follow the document: after a reconcile every enabled entry's
// context is the one the document's ancestry gives, and when that fails.

module Grounding {
  import opened Profiles
  import opened Forest
  import opened Contexts
  import opened Diff
  import opened Apply
  import opened Reconcile

  ghost predicate ContextIs(entries: Runtimes, id: EntryId, layers: Layers) {
    id in entries && entries[id].context == Some(layers)
  }

  lemma SameAncestry(r: Run, id: EntryId)
    requires Posed(r) && EnabledIn(Specs(r.start), id) && Active(r, id)
    requires Rebind !in Needs(r, id) && Replace !in Needs(r, id)
    ensures Ancestry(Specs(r.start), id) == Ancestry(r.now, id)
  {
    if Environment(Specs(r.start), id) == Environment(r.now, id) { SameEnvironment(Specs(r.start), r.now, id); }
  }

  lemma StartContext(r: Run, id: EntryId)
    requires Posed(r) && Grounded(r.start) && Held(r.start, id)
    ensures EnabledIn(Specs(r.start), id) && ContextIs(r.start, id, Ancestry(Specs(r.start), id))
  {
    HeldWhen(r, id);
  }

  /** An active entry's stored context, if it has one, is the ancestry's once its steps so far have succeeded. */
  ghost predicate Follows(r: Run, k: nat, id: EntryId)
    requires k <= |r.steps| == |r.answers|
  {
    Ran(r, k, id) != [] && Active(r, id) && Held(State(r, k), id) ==> ContextIs(State(r, k), id, Ancestry(r.now, id))
  }

  /** A parent's chain of isolations differs between the two documents. */
  ghost predicate Moved(r: Run, parent: EntryId) {
    && Stands(Specs(r.start), parent) && Stands(r.now, parent)
    && Ancestry(Specs(r.start), parent) != Ancestry(r.now, parent)
  }

  /** Step `k` derives a context while the parent still holds the chain it had before, which moved. */
  ghost predicate DerivesEarly(r: Run, k: nat)
    requires k < |r.steps|
  {
    var step := r.steps[k];
    && Derives(step.kind) && step.entry in r.now && r.now[step.entry].parent.Some?
    && Ran(r, k, r.now[step.entry].parent.value) == [] && Moved(r, r.now[step.entry].parent.value)
  }

  /** A parent that a step derives under before its own steps still holds the context it had. */
  lemma EarlyParent(r: Run, k: nat, parent: EntryId)
    requires k < |r.steps| == |r.answers| && r.steps[k].entry in r.now && r.now[r.steps[k].entry].parent == Some(parent)
    requires Planned(r) && Succeeds(r, k + 1) && Grounded(r.start)
    requires Derives(r.steps[k].kind) && Ran(r, k, parent) == []
    ensures parent != r.steps[k].entry && EnabledIn(Specs(r.start), parent) && EnabledIn(r.now, parent)
    ensures ContextIs(State(r, k), parent, Ancestry(Specs(r.start), parent))
  {
    hide KindsOf, Stepped, InPlanOrder, Disabled, OutcomeAt, Grounded, Sound, Kinds;
    PlannedIs(r);
    StepNeeded(r, k);
    ParentEnabled(r, r.steps[k].entry, r.steps[k].kind);
    DerivedFrom(r, k, parent);
    Progress(r, k, parent);
    ParentRuntime(r, State(r, k), parent, []);
    StartContext(r, parent);
  }

  /** The parent a step derives under already has the document's context, unless it derives early. */
  lemma ParentContext(r: Run, k: nat, parent: EntryId)
    requires k < |r.steps| == |r.answers| && r.steps[k].entry in r.now && r.now[r.steps[k].entry].parent == Some(parent)
    requires Planned(r) && Succeeds(r, k + 1) && Grounded(r.start)
    requires Derives(r.steps[k].kind) && !DerivesEarly(r, k) && Follows(r, k, parent)
    ensures Stands(r.now, parent) && ContextIs(State(r, k), parent, Ancestry(r.now, parent))
  {
    hide KindsOf, Stepped, InPlanOrder, Disabled, OutcomeAt, Grounded, Sound, Kinds;
    PlannedIs(r);
    StepNeeded(r, k);
    ParentEnabled(r, r.steps[k].entry, r.steps[k].kind);
    if Ran(r, k, parent) == [] {
      EarlyParent(r, k, parent);
    } else {
      DerivedFrom(r, k, parent);
      Progress(r, k, parent);
      RanPrefix(r, k, parent);
      ParentRuntime(r, State(r, k), parent, Ran(r, k, parent));
    }
  }

  /** A step that derived found its parent's context. */
  lemma DerivedFrom(r: Run, k: nat, parent: EntryId)
    requires k < |r.steps| == |r.answers| && Succeeds(r, k + 1) && Derives(r.steps[k].kind)
    requires r.steps[k].entry in r.now && r.now[r.steps[k].entry].parent == Some(parent) && parent != r.steps[k].entry
    ensures parent in State(r, k) && State(r, k)[parent].context.Some?
  {
    OutcomeIs(r, k);
    assert OutcomeAt(r.start, r.now, r.steps, r.answers, k).Done?;
  }

  /** A deriving step leaves its entry with the context its parent's gives. */
  lemma DerivesContext(r: Run, k: nat)
    requires k < |r.steps| == |r.answers| && Succeeds(r, k + 1) && Derives(r.steps[k].kind)
    requires Stands(r.now, r.steps[k].entry)
    ensures var id := r.steps[k].entry; var parent := r.now[id].parent;
            && (parent.None? ==> ContextIs(State(r, k + 1), id, [r.now[id].isolation]))
            && forall layers :: parent.Some? && ContextIs(State(r, k), parent.value, layers) ==>
                 ContextIs(State(r, k + 1), id, layers + [r.now[id].isolation])
  {
    OutcomeIs(r, k);
    NotItsOwnParent(r.now, r.steps[k].entry);
    assert OutcomeAt(r.start, r.now, r.steps, r.answers, k).Done?;
  }

  lemma RestateKeepsContext(r: Run, k: nat)
    requires k < |r.steps| == |r.answers| && Succeeds(r, k + 1) && r.steps[k].kind == Restate
    ensures var id := r.steps[k].entry;
            && (Held(State(r, k + 1), id) <==> Held(State(r, k), id))
            && forall layers :: ContextIs(State(r, k), id, layers) ==> ContextIs(State(r, k + 1), id, layers)
  {
    OutcomeIs(r, k);
  }

  lemma {:induction false} FollowsThrough(r: Run, k: nat, id: EntryId)
    requires Planned(r) && k <= |r.steps| && Succeeds(r, k) && Grounded(r.start)
    requires forall j :: 0 <= j < k ==> !DerivesEarly(r, j)
    ensures Follows(r, k, id)
    decreases k
  {
    hide Kinds, KindsOf, Stepped, InPlanOrder, Disabled, OutcomeAt;
    hide Grounded, Sound, Consistent, Expected, Stands, Moved;
    if k == 0 {
      NoneRan(r, id);
    } else {
      FollowsThrough(r, k - 1, id);
      RanStep(r, k - 1, id);
      RanPrefix(r, k, id);
      PlannedIs(r);
      var step := r.steps[k - 1];
      if step.entry != id {
        OutcomeIs(r, k - 1);
        OnlyItsOwn(State(r, k - 1), step, Wanted(r.now, step.entry), r.answers[k - 1], id);
      } else if Active(r, id) && Held(State(r, k), id) {
        NeedsShape(r, id, Ran(r, k - 1, id), step.kind);
        NeedSays(r, id, step.kind);
        if step.kind == Restate {
          RestateKeepsContext(r, k - 1);
          if Ran(r, k - 1, id) == [] { RestateAlone(r, k - 1, id); }
        } else {
          DerivesContext(r, k - 1);
          AncestryStep(r.now, id);
          if r.now[id].parent.Some? {
            FollowsThrough(r, k - 1, r.now[id].parent.value);
            ParentContext(r, k - 1, r.now[id].parent.value);
          }
        }
      }
    }
  }

  /** An entry that is only restated keeps the context it had, which is the document's. */
  /** An entry whose first need is to restate keeps its ancestry. */
  lemma RestateFirst(r: Run, id: EntryId)
    requires Posed(r) && [Restate] <= Needs(r, id) && Active(r, id)
    ensures EnabledIn(Specs(r.start), id) && Ancestry(Specs(r.start), id) == Ancestry(r.now, id)
  {
    NeedsShape(r, id, [], Restate);
    NeedSays(r, id, Restate);
    assert Needs(r, id)[0] == Restate;
    SameAncestry(r, id);
  }

  lemma RestateAlone(r: Run, k: nat, id: EntryId)
    requires Planned(r) && k < |r.steps| && Succeeds(r, k) && Grounded(r.start)
    requires Ran(r, k, id) == [] && r.steps[k] == Step(id, Restate) && Active(r, id) && Held(State(r, k), id)
    ensures ContextIs(State(r, k), id, Ancestry(r.now, id))
  {
    hide Kinds, KindsOf, InPlanOrder, Consistent, Sound, Grounded, Stands, Disabled, Succeeds, OutcomeAt, After;
    RanStep(r, k, id);
    RanPrefix(r, k + 1, id);
    RestateFirst(r, id);
    Progress(r, k, id);
    StartContext(r, id);
  }

  /** An entry whose context was derived early keeps the chain its parent had before. */
  lemma EarlyStaysStale(r: Run, k: nat)
    requires Planned(r) && k < |r.steps| && Succeeds(r, |r.steps|) && Grounded(r.start) && DerivesEarly(r, k)
    ensures var id := r.steps[k].entry;
            && Active(r, id) && Held(State(r, |r.steps|), id)
            && !ContextIs(State(r, |r.steps|), id, Ancestry(r.now, id))
  {
    hide KindsOf, Stepped, InPlanOrder, Disabled, OutcomeAt, Grounded, Sound, Kinds;
    var id := r.steps[k].entry;
    var parent := r.now[id].parent.value;
    PlannedIs(r);
    StepNeeded(r, k);
    NeedSays(r, id, r.steps[k].kind);
    EarlyParent(r, k, parent);
    DerivesContext(r, k);
    AncestryStep(r.now, id);
    RanStep(r, k, id);
    KeepsContext(r, k + 1, id, Ancestry(Specs(r.start), parent) + [r.now[id].isolation]);
    LongerDiffers(Ancestry(Specs(r.start), parent), Ancestry(r.now, parent), r.now[id].isolation);
  }

  lemma LongerDiffers(a: Layers, b: Layers, own: seq<Binding>)
    requires a != b
    ensures a + [own] != b + [own]
  {
    assert (a + [own])[..|a|] == a && (b + [own])[..|b|] == b;
  }

  /** After an entry's first step only a restatement may still come, and it keeps the context. */
  lemma KeepsContext(r: Run, j: nat, id: EntryId, layers: Layers)
    requires Planned(r) && j <= |r.steps| && Succeeds(r, |r.steps|)
    requires ContextIs(State(r, j), id, layers) && Ran(r, j, id) != []
    ensures ContextIs(State(r, |r.steps|), id, layers)
  {
    hide Kinds, KindsOf, Stepped, InPlanOrder, Disabled, OutcomeAt, Sound, Consistent, Expected, Stands;
    for k := j to |r.steps|
      invariant ContextIs(State(r, k), id, layers) && Ran(r, k, id) != []
    {
      RanStep(r, k, id);
      RanPrefix(r, k + 1, id);
      var step := r.steps[k];
      if step.entry == id {
        NeedsShape(r, id, Ran(r, k, id), step.kind);
        RestateKeepsContext(r, k);
      } else {
        OutcomeIs(r, k);
        OnlyItsOwn(State(r, k), step, Wanted(r.now, step.entry), r.answers[k], id);
      }
    }
  }

  /** The entry hangs under a parent whose chain moved and which this reconcile replaces, or quarantines. */
  ghost predicate UnderMoved(r: Run, id: EntryId) {
    && id in r.now && r.now[id].parent.Some?
    && var parent := r.now[id].parent.value;
       (Replace in Needs(r, parent) || parent in r.contained) && Moved(r, parent)
  }

  /** Each replacement of `id` comes after one of `parent`. */
  predicate ReplacedAfter(steps: seq<Step>, id: EntryId, parent: EntryId) {
    forall j :: 0 <= j < |steps| && steps[j] == Step(id, Replace) ==>
      exists i :: 0 <= i < j && steps[i] == Step(parent, Replace)
  }

  /**
   * Every entry under a moved parent takes its new chain: under a replaced parent it is not rebound, and
   * is replaced only after it; under a quarantined one it derives nothing.
   */
  ghost predicate ChildrenWait(r: Run) {
    forall id :: UnderMoved(r, id) ==>
      var parent := r.now[id].parent.value;
      if parent in r.contained then forall kind :: kind in Needs(r, id) ==> !Derives(kind)
      else Rebind !in Needs(r, id) && (Replace in Needs(r, id) ==> ReplacedAfter(r.steps, id, parent))
  }

  /** A step has run exactly when it stands earlier in the plan. */
  lemma {:induction false} RanWhen(r: Run, k: nat, step: Step)
    requires k <= |r.steps|
    ensures step.kind in Ran(r, k, step.entry) <==> exists i :: 0 <= i < k && r.steps[i] == step
    decreases k
  {
    if k > 0 {
      RanStep(r, k - 1, step.entry);
      RanWhen(r, k - 1, step);
    }
  }

  /** Only the replacement of a moved parent, or its containment, can come after a step that derives under it. */
  lemma EarlyUnder(r: Run, k: nat)
    requires Planned(r) && k < |r.steps| && Succeeds(r, |r.steps|) && Grounded(r.start) && DerivesEarly(r, k)
    ensures var id := r.steps[k].entry; var parent := r.now[id].parent.value;
            && UnderMoved(r, id) && r.steps[k].kind in Needs(r, id)
            && (parent !in r.contained ==> r.steps[k].kind in {Rebind, Replace})
  {
    hide KindsOf, Stepped, InPlanOrder, Disabled, OutcomeAt, Grounded, Sound, Kinds, Consistent;
    var step := r.steps[k];
    var parent := r.now[step.entry].parent.value;
    PlannedIs(r);
    StepNeeded(r, k);
    ParentEnabled(r, step.entry, step.kind);
    EarlyParent(r, k, parent);
    if parent !in r.contained {
      if Rebind in Needs(r, parent) {
        NotYet(r, k, parent, Rebind);
        NeedSays(r, step.entry, step.kind);
        NeedSays(r, parent, Rebind);
      } else if Replace in Needs(r, parent) {
        NotYet(r, k, parent, Replace);
      } else {
        SameAncestry(r, parent);
      }
    }
  }

  /** Whether any step derives early is told from what each entry needs and the order of the replacements. */
  lemma NoneEarlyWhen(r: Run)
    requires Planned(r) && Succeeds(r, |r.steps|) && Grounded(r.start)
    ensures (forall k :: 0 <= k < |r.steps| ==> !DerivesEarly(r, k)) <==> ChildrenWait(r)
  {
    hide KindsOf, Stepped, InPlanOrder, Disabled, OutcomeAt, Grounded, Sound, Kinds, Consistent, Moved, Stands;
    if ChildrenWait(r) {
      forall k | 0 <= k < |r.steps| ensures !DerivesEarly(r, k) {
        if DerivesEarly(r, k) { EarlyUnder(r, k); WaitingIsNotEarly(r, k); }
      }
    }
    if forall k :: 0 <= k < |r.steps| ==> !DerivesEarly(r, k) {
      forall id | UnderMoved(r, id)
        ensures var parent := r.now[id].parent.value;
                if parent in r.contained then forall kind :: kind in Needs(r, id) ==> !Derives(kind)
                else Rebind !in Needs(r, id) && (Replace in Needs(r, id) ==> ReplacedAfter(r.steps, id, parent))
      {
        ChildWaits(r, id);
      }
    }
  }

  lemma WaitingIsNotEarly(r: Run, k: nat)
    requires Planned(r) && k < |r.steps| && ChildrenWait(r)
    requires var id := r.steps[k].entry;
             UnderMoved(r, id) && r.steps[k].kind in Needs(r, id)
             && (r.now[id].parent.value !in r.contained ==> r.steps[k].kind in {Rebind, Replace})
    ensures !DerivesEarly(r, k)
  {
    hide KindsOf, Kinds, Moved, Needs;
    var id := r.steps[k].entry;
    RanWhen(r, k, Step(r.now[id].parent.value, Replace));
  }

  lemma ChildWaits(r: Run, id: EntryId)
    requires Planned(r) && Succeeds(r, |r.steps|) && Grounded(r.start) && UnderMoved(r, id)
    requires forall k :: 0 <= k < |r.steps| ==> !DerivesEarly(r, k)
    ensures var parent := r.now[id].parent.value;
            if parent in r.contained then forall kind :: kind in Needs(r, id) ==> !Derives(kind)
            else Rebind !in Needs(r, id) && (Replace in Needs(r, id) ==> ReplacedAfter(r.steps, id, parent))
  {
    hide KindsOf, Stepped, InPlanOrder, Disabled, OutcomeAt, Grounded, Sound, Kinds, Consistent, Moved, Stands;
    var parent := r.now[id].parent.value;
    PlannedIs(r);
    if parent in r.contained {
      forall kind | kind in Needs(r, id) ensures !Derives(kind) {
        if Derives(kind) { ContainedParentEarly(r, id, kind); }
      }
    } else {
      ReplacedParent(r, parent);
      if Rebind in Needs(r, id) { RebindIsEarly(r, id); }
      forall j | 0 <= j < |r.steps| && r.steps[j] == Step(id, Replace)
        ensures exists i :: 0 <= i < j && r.steps[i] == Step(parent, Replace)
      {
        RanPrefix(r, j, parent);
        RanWhen(r, j, Step(parent, Replace));
        assert !DerivesEarly(r, j);
      }
    }
  }

  /** Rebinds run before any replacement. */
  lemma RebindIsEarly(r: Run, id: EntryId)
    requires Planned(r) && UnderMoved(r, id) && r.now[id].parent.value !in r.contained && Rebind in Needs(r, id)
    ensures exists k :: 0 <= k < |r.steps| && DerivesEarly(r, k)
  {
    hide KindsOf, Stepped, InPlanOrder, Disabled, OutcomeAt, Sound, Kinds, Consistent, Moved, Stands;
    var parent := r.now[id].parent.value;
    PlannedIs(r);
    ReplacedParent(r, parent);
    NoneRan(r, id);
    var k := StillToCome(r, 0, id, Rebind);
    ParentEnabled(r, id, Rebind);
    RanPrefix(r, k, parent);
    if Ran(r, k, parent) != [] { RanEarlier(r, k, parent, Replace); }
    assert DerivesEarly(r, k);
  }

  lemma ReplacedParent(r: Run, parent: EntryId)
    requires Posed(r) && Replace in Needs(r, parent) && parent !in r.contained
    ensures Needs(r, parent) == [Replace]
  {}

  /** A child that derives under a quarantined parent does so before the containment, or not at all. */
  lemma ContainedParentEarly(r: Run, id: EntryId, kind: StepKind)
    requires Planned(r) && Succeeds(r, |r.steps|) && Grounded(r.start) && UnderMoved(r, id)
    requires r.now[id].parent.value in r.contained && kind in Needs(r, id) && Derives(kind)
    ensures exists k :: 0 <= k < |r.steps| && DerivesEarly(r, k)
  {
    hide KindsOf, Stepped, InPlanOrder, Disabled, OutcomeAt, Grounded, Sound, Kinds, Consistent, Moved, Stands;
    var parent := r.now[id].parent.value;
    PlannedIs(r);
    NoneRan(r, id);
    var k := StillToCome(r, 0, id, kind);
    ParentEnabled(r, id, kind);
    DerivedFrom(r, k, parent);
    Progress(r, k, parent);
    RanPrefix(r, k, parent);
    ParentRuntime(r, State(r, k), parent, Ran(r, k, parent));
    assert DerivesEarly(r, k);
  }

  /**
   * Contexts follow the document: when every step succeeds, every active entry's stored context (an entry
   * that was down may have none) is the one its new ancestry dictates exactly when no entry under a replaced
   * parent whose chain moved is rebound, or replaced before that parent; and none derives under a
   * quarantined one whose chain moved.
   */
  lemma ContextsFollow(r: Run)
    requires Planned(r) && Succeeds(r, |r.steps|) && Grounded(r.start)
    ensures (forall id :: Active(r, id) && (id in r.down ==> Held(State(r, |r.steps|), id)) ==>
               ContextIs(State(r, |r.steps|), id, Ancestry(r.now, id))) <==> ChildrenWait(r)
  {
    hide Kinds, KindsOf, Stepped, InPlanOrder, Disabled, OutcomeAt;
    hide Grounded, Sound, Consistent, Expected, ChildrenWait, DerivesEarly;
    PlannedIs(r);
    NoneEarlyWhen(r);
    if forall k :: 0 <= k < |r.steps| ==> !DerivesEarly(r, k) {
      forall id | Active(r, id) && (id in r.down ==> Held(State(r, |r.steps|), id))
        ensures ContextIs(State(r, |r.steps|), id, Ancestry(r.now, id))
      {
        FollowsThrough(r, |r.steps|, id);
        RanPrefix(r, |r.steps|, id);
        ActiveHeld(r, id);
        if Needs(r, id) == [] { UntouchedContext(r, id); }
      }
    } else {
      var k :| 0 <= k < |r.steps| && DerivesEarly(r, k);
      EarlyStaysStale(r, k);
    }
  }

  lemma ActiveHeld(r: Run, id: EntryId)
    requires Planned(r) && Succeeds(r, |r.steps|) && Active(r, id)
    ensures id !in r.down ==> Held(State(r, |r.steps|), id)
  {
    hide InPlanOrder, After, OutcomeAt, Succeeds, Consistent;
    Converges(r);
    assert Settled(r, State(r, |r.steps|), id);
    StandsWithin(r.now, id);
  }

  lemma UntouchedContext(r: Run, id: EntryId)
    requires Planned(r) && Succeeds(r, |r.steps|) && Grounded(r.start)
    requires Active(r, id) && Needs(r, id) == [] && Held(State(r, |r.steps|), id)
    ensures ContextIs(State(r, |r.steps|), id, Ancestry(r.now, id))
  {
    NothingNeeded(r, id);
    Progress(r, |r.steps|, id);
    RanPrefix(r, |r.steps|, id);
    StandsWithin(r.now, id);
    StandsWithin(Specs(r.start), id);
    SameAncestry(r, id);
    StartContext(r, id);
  }

  // ----- the conditions cannot be dropped

  const TOP := EntryId("top")
  const LEAF := EntryId("leaf")

  function Plain(id: EntryId, version: string, parent: Option<EntryId>, isolation: seq<Binding>): Entry {
    Entry(id, PluginRef("p", version, ""), Config(""), false, parent, isolation)
  }

  /** One enabled plugin under another. */
  function Pair(version: string, lower: string, isolation: seq<Binding>): Doc {
    map[TOP := Plain(TOP, version, None, isolation), LEAF := Plain(LEAF, lower, Some(TOP), [])]
  }

  lemma PairStands(version: string, lower: string, isolation: seq<Binding>)
    ensures var m := Pair(version, lower, isolation);
            && Sound(m) && (forall id :: Stands(m, id) <==> id in {TOP, LEAF})
            && Depth(m, TOP) == 0 && Depth(m, LEAF) == 1 && !Disabled(m, TOP) && !Disabled(m, LEAF)
            && Environment(m, TOP) == [(TOP, isolation)] && Environment(m, LEAF) == [(TOP, isolation), (LEAF, [])]
  {
    var m := Pair(version, lower, isolation);
    DepthIs(m, TOP, 0);
    DepthIs(m, LEAF, 1);
    forall id | Stands(m, id) ensures id in {TOP, LEAF} { StandsWithin(m, id); }
  }

  const MOVED: seq<Binding> := [Binding("s", Shared("r"))]

  const WELL := Answer(true, Some(Live(Lane([], None))), true, true)

  /** The upper plugin is swapped while its isolation changes; the lower one stays, or is swapped too, and first. */
  ghost function Swapping(both: bool): Run {
    Run(map[TOP := Runtime(Plain(TOP, "1", None, []), Some([[]]), Some(Live(Lane([], None)))),
            LEAF := Runtime(Plain(LEAF, "1", Some(TOP), []), Some([[], []]), Some(Live(Lane([], None))))],
        {}, Pair("2", if both then "2" else "1", MOVED), Some((a, b) => a == b), {},
        [Step(LEAF, if both then Replace else Rebind), Step(TOP, Replace)], [WELL, WELL])
  }

  lemma SwappingNeeds(both: bool)
    ensures var r := Swapping(both);
            && Specs(r.start) == Pair("1", "1", [])
            && Needs(r, LEAF) == [if both then Replace else Rebind] && Needs(r, TOP) == [Replace]
            && forall id :: id !in {TOP, LEAF} ==> Needs(r, id) == []
  {
    var r := Swapping(both);
    assert Specs(r.start) == Pair("1", "1", []);
    PairStands("1", "1", []);
    PairStands("2", if both then "2" else "1", MOVED);
    assert Environment(r.now, LEAF)[0] != Environment(Specs(r.start), LEAF)[0];
    forall id | id !in {TOP, LEAF} ensures Needs(r, id) == [] {
      StandsWithin(r.now, id);
      StandsWithin(Specs(r.start), id);
    }
  }

  lemma TwoSteps(a: Step, b: Step, id: EntryId)
    ensures KindsOf([a, b], id) == (if a.entry == id then [a.kind] else []) + (if b.entry == id then [b.kind] else [])
  {
    assert [a, b] == ([] + [a]) + [b];
    KindsOfMore([] + [a], b, id);
    KindsOfMore([], a, id);
  }

  lemma SwappingPlanned(both: bool)
    ensures Planned(Swapping(both)) && Grounded(Swapping(both).start) && Obliging(Swapping(both).answers)
  {
    hide Posed, Kinds, KindsOf, Grounded;
    var r := Swapping(both);
    SwappingNeeds(both);
    SwappingPosed(both);
    forall id ensures KindsOf(r.steps, id) == Needs(r, id) { TwoSteps(r.steps[0], r.steps[1], id); }
    SwappingGrounded(both);
  }

  lemma SwappingPosed(both: bool)
    ensures Posed(Swapping(both)) && InPlanOrder(Swapping(both)) && Obliging(Swapping(both).answers)
  {
    SwappingNeeds(both);
    hide Kinds, KindsOf, Stands, Disabled;
    PairStands("1", "1", []);
    PairStands("2", if both then "2" else "1", MOVED);
  }

  lemma SwappingGrounded(both: bool)
    ensures Grounded(Swapping(both).start)
  {
    SwappingNeeds(both);
    PairStands("1", "1", []);
    var m := Specs(Swapping(both).start);
    assert Ancestry(m, TOP) == [[]] && Ancestry(m, LEAF) == [[], []];
  }

  /** Every step succeeds, yet the lower plugin's context is not the document's. */
  lemma SwappingLeavesStale(both: bool)
    ensures var r := Swapping(both);
            && Planned(r) && Grounded(r.start) && Succeeds(r, |r.steps|) && EnabledIn(r.now, LEAF)
            && !ContextIs(State(r, |r.steps|), LEAF, Ancestry(r.now, LEAF))
  {
    hide Planned, Grounded, Sound, InPlanOrder, Consistent, Kinds, Succeeds, After;
    var r := Swapping(both);
    SwappingPlanned(both);
    SwappingNeeds(both);
    PairStands("1", "1", []);
    PairStands("2", if both then "2" else "1", MOVED);
    forall id | (Rebind in Needs(r, id) || Replace in Needs(r, id)) && id in r.now && r.now[id].parent.Some?
      ensures EnabledIn(Specs(r.start), r.now[id].parent.value)
    {
      assert id in {TOP, LEAF};
    }
    SucceedsWhen(r);
    assert Ancestry(Specs(r.start), TOP) == [[]];
    assert Ancestry(r.now, TOP) == [MOVED];
    assert DerivesEarly(r, 0);
    EarlyStaysStale(r, 0);
  }

  /** A run where every step succeeds and an entry rebound under a swapped parent keeps the old chain. */
  lemma SwapLeavesChildStale()
    ensures exists r: Run, id ::
              && Planned(r) && Grounded(r.start) && Succeeds(r, |r.steps|) && EnabledIn(r.now, id)
              && Rebind in Needs(r, id)
              && !ContextIs(State(r, |r.steps|), id, Ancestry(r.now, id))
  {
    SwappingNeeds(false);
    SwappingLeavesStale(false);
  }

  /** Nothing is rebound, yet an entry swapped ahead of its parent, as the document lists them, keeps the old chain. */
  lemma SwapOrderLeavesChildStale()
    ensures exists r: Run, id ::
              && Planned(r) && Grounded(r.start) && Succeeds(r, |r.steps|) && EnabledIn(r.now, id)
              && (forall x :: Rebind !in Needs(r, x))
              && !ContextIs(State(r, |r.steps|), id, Ancestry(r.now, id))
  {
    hide Needs;
    SwappingNeeds(true);
    SwappingLeavesStale(true);
    var r := Swapping(true);
    forall x ensures Rebind !in Needs(r, x) { if x !in {TOP, LEAF} { assert Needs(r, x) == []; } }
  }

  /** A plugin is moved under a parent that this reconcile creates. */
  ghost function Moving(): Run {
    Run(map[LEAF := Runtime(Plain(LEAF, "", None, []), Some([[]]), Some(Live(Lane([], None))))],
        {}, Pair("1", "", []), Some((a, b) => a == b), {},
        [Step(LEAF, Rebind), Step(TOP, Create)], [WELL, WELL])
  }

  lemma LoneStands(m: Doc)
    requires m == map[LEAF := Plain(LEAF, "", None, [])]
    ensures Sound(m) && (forall id :: Stands(m, id) <==> id == LEAF)
    ensures Depth(m, LEAF) == 0 && !Disabled(m, LEAF) && Environment(m, LEAF) == [(LEAF, [])]
  {
    DepthIs(m, LEAF, 0);
    forall id | Stands(m, id) ensures id == LEAF { StandsWithin(m, id); }
  }

  lemma MovingPlanned()
    ensures Planned(Moving()) && Obliging(Moving().answers)
    ensures Rebind in Needs(Moving(), LEAF) && !Stands(Specs(Moving().start), TOP)
  {
    hide Posed, Kinds, KindsOf;
    var r := Moving();
    MovingNeeds();
    forall id ensures KindsOf(r.steps, id) == Needs(r, id) { TwoSteps(r.steps[0], r.steps[1], id); }
  }

  lemma MovingNeeds()
    ensures var r := Moving();
            && Posed(r) && InPlanOrder(r) && !Stands(Specs(r.start), TOP)
            && Needs(r, LEAF) == [Rebind] && Needs(r, TOP) == [Create]
            && forall id :: id !in {TOP, LEAF} ==> Needs(r, id) == []
  {
    var r := Moving();
    assert Specs(r.start) == map[LEAF := Plain(LEAF, "", None, [])];
    LoneStands(Specs(r.start));
    PairStands("1", "", []);
    assert |Environment(r.now, LEAF)| != |Environment(Specs(r.start), LEAF)|;
    forall id | id !in {TOP, LEAF} ensures Needs(r, id) == [] {
      StandsWithin(r.now, id);
      StandsWithin(Specs(r.start), id);
    }
  }

  /** However well everything outside answers, the rebind under it fails. */
  lemma RebindUnderNewParentFails()
    ensures exists r: Run :: Planned(r) && r.contained == {} && Obliging(r.answers) && !Succeeds(r, |r.steps|)
  {
    hide Planned, Sound, InPlanOrder, Consistent, Kinds, Succeeds, After, Obliging;
    var r := Moving();
    MovingPlanned();
    SucceedsWhen(r);
    assert r.now[LEAF].parent == Some(TOP);
    assert !EnabledIn(Specs(r.start), TOP);
  }
}
