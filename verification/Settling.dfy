// When a second reconcile onto the same document has nothing left to do.

module Settling {
  import opened Profiles
  import opened Forest
  import opened Contexts
  import opened Diff
  import opened Apply
  import opened Reconcile

  // ----- documents alike up to configs

  ghost predicate SameShape(a: Doc, b: Doc) {
    a.Keys == b.Keys && forall id :: id in a ==> a[id].(config := b[id].config) == b[id]
  }

  lemma {:induction false} ShapeRooted(a: Doc, b: Doc, id: EntryId, k: nat)
    requires SameShape(a, b) && Rooted(a, id, k)
    ensures Rooted(b, id, k)
    ensures DisabledWithin(a, id, k) == DisabledWithin(b, id, k)
    ensures EnvironmentWithin(a, id, k) == EnvironmentWithin(b, id, k)
    decreases k
  {
    if k > 0 { ShapeRooted(a, b, a[id].parent.value, k - 1); }
  }

  lemma ShapeStands(a: Doc, b: Doc, id: EntryId)
    requires SameShape(a, b) && Stands(a, id)
    ensures Stands(b, id) && (Disabled(a, id) <==> Disabled(b, id)) && Environment(a, id) == Environment(b, id)
  {
    ShapeRooted(a, b, id, Depth(a, id));
    DepthIs(b, id, Depth(a, id));
  }

  lemma ShapeBack(a: Doc, b: Doc)
    requires SameShape(a, b)
    ensures SameShape(b, a)
  {
    forall id | id in b ensures b[id].(config := a[id].config) == a[id] {
      assert a[id].(config := b[id].config) == b[id];
    }
  }

  // ----- the records a reconcile leaves

  /** The document with the stale records of the entries disabled on both sides laid over it. */
  ghost function Overlaid(r: Run): Doc {
    map id | id in r.now :: if StillDisabled(r, id) then Specs(r.start)[id] else r.now[id]
  }

  /** Every entry disabled on both sides is disabled under the overlaid records too. */
  ghost predicate StaysDisabled(r: Run) {
    forall id :: StillDisabled(r, id) ==> Stands(Overlaid(r), id) && Disabled(Overlaid(r), id)
  }

  ghost predicate Reflexive(attested: Attestation) { forall config :: !Restates(attested, config, config) }

  lemma EndShape(r: Run, end: Runtimes)
    requires Planned(r) && forall id :: Settled(r, end, id)
    ensures SameShape(Specs(end), Overlaid(r))
  {
    hide Kinds, Consistent, Sound, Disabled, Stands, StillDisabled, Rooted;
    forall id ensures id in Specs(end) <==> id in Overlaid(r) { assert Settled(r, end, id); }
    forall id | id in Specs(end) ensures Specs(end)[id].(config := Overlaid(r)[id].config) == Overlaid(r)[id] {
      assert Settled(r, end, id);
    }
  }

  /** An enabled entry's chain is the document's, untouched by stale records. */
  lemma {:induction false} EnabledOverlaid(r: Run, id: EntryId, k: nat)
    requires Planned(r) && EnabledIn(r.now, id) && Rooted(r.now, id, k)
    ensures Rooted(Overlaid(r), id, k) && !DisabledWithin(Overlaid(r), id, k)
    ensures EnvironmentWithin(Overlaid(r), id, k) == EnvironmentWithin(r.now, id, k)
    decreases k
  {
    EnabledSelf(r.now, id);
    assert Overlaid(r)[id] == r.now[id];
    if k > 0 { EnabledOverlaid(r, r.now[id].parent.value, k - 1); }
  }

  lemma EnabledStays(r: Run, id: EntryId)
    requires Planned(r) && EnabledIn(r.now, id)
    ensures EnabledIn(Overlaid(r), id) && Environment(Overlaid(r), id) == Environment(r.now, id)
  {
    EnabledOverlaid(r, id, Depth(r.now, id));
    DepthIs(Overlaid(r), id, Depth(r.now, id));
  }

  /** A disabled entry of the document is disabled under the overlaid records, if the stale ones are. */
  lemma {:induction false} DisabledOverlaid(r: Run, id: EntryId, k: nat)
    requires Planned(r) && StaysDisabled(r) && Rooted(r.now, id, k) && Disabled(r.now, id)
    ensures Stands(Overlaid(r), id) && Disabled(Overlaid(r), id)
    decreases k
  {
    if !StillDisabled(r, id) {
      assert Overlaid(r)[id] == r.now[id];
      DepthIs(r.now, id, k);
      if k == 0 {
        DepthIs(Overlaid(r), id, 0);
      } else {
        var parent := r.now[id].parent.value;
        ParentStands(r.now, id);
        if Disabled(r.now, parent) { DisabledOverlaid(r, parent, k - 1); } else { EnabledStays(r, parent); }
        ChildStands(Overlaid(r), id);
      }
    }
  }

  /** One entry needs nothing more, unless it is disabled on both sides and its stale record says otherwise. */
  lemma QuietEntry(r: Run, end: Runtimes, id: EntryId)
    requires Planned(r) && Reflexive(r.attested) && forall x :: Settled(r, end, x)
    requires !StillDisabled(r, id) ==> StaysDisabled(r)
    ensures Kinds(Specs(end), r.now, r.attested, id) == [] <==>
              (StillDisabled(r, id) ==> Stands(Overlaid(r), id) && Disabled(Overlaid(r), id))
  {
    EndShape(r, end);
    ShapeBack(Specs(end), Overlaid(r));
    assert Settled(r, end, id);
    StandsWithin(Specs(end), id);
    StandsWithin(r.now, id);
    if StillDisabled(r, id) {
      if Stands(Overlaid(r), id) { ShapeStands(Overlaid(r), Specs(end), id); }
      if Stands(Specs(end), id) { ShapeStands(Specs(end), Overlaid(r), id); }
    } else if id in r.now {
      if EnabledIn(r.now, id) { EnabledStays(r, id); } else { DisabledOverlaid(r, id, Depth(r.now, id)); }
      ShapeStands(Overlaid(r), Specs(end), id);
    }
  }

  /** The second plan asks for nothing. */
  ghost predicate Quiet(r: Run, end: Runtimes) {
    forall id :: Kinds(Specs(end), r.now, r.attested, id) == []
  }

  /**
   * After a reconcile whose every step succeeded, a second plan onto the same document is empty exactly
   * when the entries disabled on both sides are still disabled under the records they kept.
   */
  lemma SecondPlanIsEmptyWhen(r: Run)
    requires Planned(r) && Succeeds(r, |r.steps|) && Reflexive(r.attested)
    ensures Quiet(r, State(r, |r.steps|)) <==> StaysDisabled(r)
  {
    hide Kinds, Stands, Disabled, StillDisabled, Consistent, InPlanOrder, Settled;
    var end := State(r, |r.steps|);
    Converges(r);
    if Quiet(r, end) {
      forall id | StillDisabled(r, id) ensures Stands(Overlaid(r), id) && Disabled(Overlaid(r), id) {
        QuietEntry(r, end, id);
      }
    }
    if StaysDisabled(r) {
      forall id ensures Kinds(Specs(end), r.now, r.attested, id) == [] { QuietEntry(r, end, id); }
    }
  }

  /**
   * The entries a successful reconcile leaves down: enabled, but quarantined now, or before under the plugin
   * they keep.
   */
  ghost function LeftDown(r: Run): set<EntryId> { set id | id in r.now && EnabledIn(r.now, id) && !Up(r, id) }

  /**
   * Wherever it started, the runtime stays what its own records say, but for the entries left down, exactly
   * when that same condition holds. With nothing down before, none is left down exactly when nothing was
   * quarantined.
   */
  lemma StaysConsistentWhen(r: Run)
    requires Planned(r) && Succeeds(r, |r.steps|)
    ensures Consistent(State(r, |r.steps|), LeftDown(r)) <==> StaysDisabled(r)
    ensures r.down == {} ==>
              && LeftDown(r) == r.contained
              && (Consistent(State(r, |r.steps|), {}) <==> StaysDisabled(r) && r.contained == {})
  {
    var end := State(r, |r.steps|);
    if r.down == {} { ContainedDown(r); }
    DownEnabledNow(r);
    hide Consistent, StaysDisabled, Settled, InPlanOrder, After, OutcomeAt, LeftDown;
    Converges(r);
    if StaysDisabled(r) { StaysConsistent(r, end); }
    if Consistent(end, LeftDown(r)) { ConsistentStays(r, end, LeftDown(r)); }
    if Consistent(end, {}) {
      ConsistentStays(r, end, {});
      forall id | id in r.contained ensures false { ContainedApart(r, end, id); }
    }
  }

  lemma DownEnabledNow(r: Run)
    ensures forall id :: id in LeftDown(r) ==> EnabledIn(r.now, id)
  {}

  lemma ContainedDown(r: Run)
    requires Planned(r) && r.down == {}
    ensures LeftDown(r) == r.contained
  {
    forall id | id in r.contained ensures id in LeftDown(r) { StandsWithin(r.now, id); }
  }

  lemma StaysConsistent(r: Run, end: Runtimes)
    requires Planned(r) && (forall id :: Settled(r, end, id)) && StaysDisabled(r)
    ensures Consistent(end, LeftDown(r))
  {
    EndShape(r, end);
    ShapeBack(Specs(end), Overlaid(r));
    assert LeftDown(r) <= end.Keys by {
      forall id | id in LeftDown(r) ensures id in end { assert Settled(r, end, id); }
    }
    forall id | id in end
      ensures Stands(Specs(end), id) && Specs(end)[id].id == id
      ensures if id in LeftDown(r) then EnabledIn(Specs(end), id) && end[id].live.None?
              else && (end[id].context.Some? <==> EnabledIn(Specs(end), id))
                   && (end[id].live.Some? <==> EnabledIn(Specs(end), id) && !IsGroup(Specs(end)[id]))
    {
      assert Settled(r, end, id);
      EndAgrees(r, end, id);
      EndRecord(r, end, id);
    }
  }

  lemma ConsistentStays(r: Run, end: Runtimes, down: set<EntryId>)
    requires Planned(r) && (forall id :: Settled(r, end, id)) && Consistent(end, down)
    requires forall id :: id in down ==> EnabledIn(r.now, id)
    ensures StaysDisabled(r)
  {
    EndShape(r, end);
    forall id | StillDisabled(r, id) ensures Stands(Overlaid(r), id) && Disabled(Overlaid(r), id) {
      assert Settled(r, end, id);
      StandsWithin(r.now, id);
      assert id in Specs(end);
      ShapeStands(Specs(end), Overlaid(r), id);
    }
  }

  /** An entry left down has a record that is the document's, and reads enabled, and no fiber. */
  lemma DownReadsEnabled(r: Run, end: Runtimes, id: EntryId)
    requires Planned(r) && (forall x :: Settled(r, end, x)) && id in LeftDown(r)
    ensures id in end && end[id].live.None?
    ensures EnabledIn(Specs(end), id) && Specs(end)[id].plugin == r.now[id].plugin
  {
    EndShape(r, end);
    ShapeBack(Specs(end), Overlaid(r));
    assert Settled(r, end, id);
    EnabledStays(r, id);
    ShapeStands(Overlaid(r), Specs(end), id);
  }

  /** So a quarantined one is not what its record says. */
  lemma ContainedApart(r: Run, end: Runtimes, id: EntryId)
    requires Planned(r) && (forall x :: Settled(r, end, x)) && id in r.contained
    ensures !Consistent(end, {})
  {
    StandsWithin(r.now, id);
    DownReadsEnabled(r, end, id);
    assert Settled(r, end, id);
  }

  /** Whether a step of this kind spawns a fiber anew. */
  predicate Spawns(kind: StepKind) { kind == Create || kind == Enable || kind == Replace }

  /**
   * Whatever the next document and the next quarantine, an entry left down is given a step that spawns it
   * exactly when it is enabled, not quarantined, and its plugin has changed: the next diff takes it for
   * running.
   */
  lemma FormerMemberSpawnsWhen(r: Run, next: Run, id: EntryId)
    requires Planned(r) && Succeeds(r, |r.steps|) && id in LeftDown(r)
    requires next.start == State(r, |r.steps|) && Sound(next.now)
    ensures (exists kind :: kind in Needs(next, id) && Spawns(kind)) <==>
              EnabledIn(next.now, id) && id !in next.contained && next.now[id].plugin != r.now[id].plugin
  {
    hide Settled, InPlanOrder, After, OutcomeAt;
    Converges(r);
    DownReadsEnabled(r, next.start, id);
    var needs := Needs(next, id);
    if EnabledIn(next.now, id) && id !in next.contained && next.now[id].plugin != r.now[id].plugin {
      assert needs == [Replace] && Replace in needs && Spawns(Replace);
    }
  }

  lemma EndAgrees(r: Run, end: Runtimes, id: EntryId)
    requires Planned(r) && StaysDisabled(r) && id in r.now
    requires SameShape(Overlaid(r), Specs(end))
    ensures Stands(Specs(end), id) && (EnabledIn(Specs(end), id) <==> EnabledIn(r.now, id))
  {
    if EnabledIn(r.now, id) { EnabledStays(r, id); } else { DisabledOverlaid(r, id, Depth(r.now, id)); }
    ShapeStands(Overlaid(r), Specs(end), id);
  }

  lemma EndRecord(r: Run, end: Runtimes, id: EntryId)
    requires Planned(r) && Settled(r, end, id) && id in end
    ensures end[id].spec.id == id
    ensures EnabledIn(r.now, id) ==> IsGroup(end[id].spec) == IsGroup(r.now[id])
  {
    if StillDisabled(r, id) { assert Specs(r.start)[id].id == id; }
  }

  /** Entries disabled on both sides that keep their record stay disabled. */
  lemma KeptRecordsStay(r: Run)
    requires Planned(r) && forall id :: StillDisabled(r, id) ==> Specs(r.start)[id] == r.now[id]
    ensures StaysDisabled(r)
  {
    assert Overlaid(r) == r.now;
  }

  /**
   * Reconciles one after another, each from where the last one ended, starting with nothing; each quarantines
   * as it will, and every step succeeds.
   */
  ghost predicate Chained(runs: seq<Run>) {
    && (|runs| > 0 ==> runs[0].start == map[] && runs[0].down == {})
    && (forall i :: 0 <= i < |runs| ==>
          && |runs[i].answers| == |runs[i].steps| && Sound(runs[i].now)
          && (forall id :: id in runs[i].contained ==> EnabledIn(runs[i].now, id))
          && (forall id :: KindsOf(runs[i].steps, id) == Needs(runs[i], id)) && InPlanOrder(runs[i])
          && Succeeds(runs[i], |runs[i].steps|))
    && (forall i :: 0 < i < |runs| ==>
          runs[i].start == State(runs[i - 1], |runs[i - 1].steps|) && runs[i].down == LeftDown(runs[i - 1]))
  }

  /**
   * Over any chain of successful reconciles, whatever they quarantine, the runtime stays consistent with its
   * records, but for the entries left down, exactly as long as what is disabled on both sides stays disabled
   * under its record.
   */
  lemma {:induction false} ChainsStayConsistent(runs: seq<Run>, n: nat)
    requires Chained(runs) && n <= |runs|
    ensures (forall i :: 0 <= i < n ==> Consistent(State(runs[i], |runs[i].steps|), LeftDown(runs[i])))
            <==> (forall i :: 0 <= i < n ==> StaysDisabled(runs[i]))
  {
    hide Consistent, StaysDisabled, InPlanOrder, After, OutcomeAt, Kinds, KindsOf, Succeeds, LeftDown;
    if n > 0 {
      ChainsStayConsistent(runs, n - 1);
      if forall i :: 0 <= i < n - 1 ==> Consistent(State(runs[i], |runs[i].steps|), LeftDown(runs[i])) {
        if n == 1 {
          NothingConsistent();
        } else {
          assert Consistent(State(runs[n - 2], |runs[n - 2].steps|), LeftDown(runs[n - 2]));
        }
        assert Planned(runs[n - 1]);
        StaysConsistentWhen(runs[n - 1]);
      }
    }
  }

  lemma NothingConsistent()
    ensures Consistent(map[], {})
  {}

  // ----- the condition cannot be dropped

  const TOP := EntryId("top")
  const SIDE := EntryId("side")
  const LEAF := EntryId("leaf")

  function Group(id: EntryId, disabled: bool): Entry {
    Entry(id, PluginRef(GROUP_PACKAGE, "", ""), Config(""), disabled, None, [])
  }

  function Leaf(parent: EntryId): Entry {
    Entry(LEAF, PluginRef("p", "", ""), Config(""), false, Some(parent), [])
  }

  /** A plugin under one group, beside another group. */
  function Layout(topOff: bool, sideOff: bool, parent: EntryId): Doc {
    map[TOP := Group(TOP, topOff), SIDE := Group(SIDE, sideOff), LEAF := Leaf(parent)]
  }

  lemma LayoutStands(topOff: bool, sideOff: bool, parent: EntryId)
    requires parent == TOP || parent == SIDE
    ensures var m := Layout(topOff, sideOff, parent);
            && Sound(m) && (forall id :: Stands(m, id) <==> id in {TOP, SIDE, LEAF})
            && Depth(m, TOP) == 0 && Depth(m, SIDE) == 0 && Depth(m, LEAF) == 1
            && (Disabled(m, TOP) <==> topOff) && (Disabled(m, SIDE) <==> sideOff)
            && (Disabled(m, LEAF) <==> if parent == TOP then topOff else sideOff)
            && Environment(m, LEAF) == [(parent, []), (LEAF, [])]
  {
    var m := Layout(topOff, sideOff, parent);
    DepthIs(m, TOP, 0);
    DepthIs(m, SIDE, 0);
    DepthIs(m, LEAF, 1);
    forall id | Stands(m, id) ensures id in {TOP, SIDE, LEAF} { StandsWithin(m, id); }
  }

  /** The plugin moves from the group that is enabled now to the one disabled now. */
  ghost function Moving(): Run {
    var before := Layout(true, true, TOP);
    Run(map id | id in before :: Runtime(before[id], None, None), {}, Layout(false, true, SIDE), Some((a, b) => a == b),
        {}, [Step(TOP, Enable)], [Answer(true, None, true, true)])
  }

  lemma MovingRuns()
    ensures Planned(Moving()) && Succeeds(Moving(), 1)
    ensures var end := State(Moving(), 1);
            && end.Keys == {TOP, SIDE, LEAF} && end[LEAF] == Runtime(Leaf(TOP), None, None)
            && Specs(end) == Layout(false, true, TOP)
  {
    var r := Moving();
    LayoutStands(true, true, TOP);
    LayoutStands(false, true, SIDE);
    assert Specs(r.start) == Layout(true, true, TOP);
    forall id ensures KindsOf(r.steps, id) == Needs(r, id) {
      assert r.steps[..0] == [];
    }
    assert After(r.start, r.now, r.steps, r.answers, 0) == r.start;
    var end := State(r, 1);
    assert Wanted(r.now, TOP) == Some(Group(TOP, false));
    assert end == r.start[TOP := Runtime(Group(TOP, false), Some([[]]), None)];
    assert Specs(end) == Layout(false, true, TOP);
  }

  /**
   * A record disabled on both sides is not refreshed: the next document enables the plugin, yet its
   * plan takes it for already enabled and gives it no step that spawns.
   */
  lemma StaleRecordIsNeverSpawned()
    ensures exists r: Run, next: Doc, id ::
              && Planned(r) && Succeeds(r, |r.steps|) && Sound(next)
              && EnabledIn(next, id) && id in next && !IsGroup(next[id])
              && id in State(r, |r.steps|) && State(r, |r.steps|)[id].live.None?
              && Kinds(Specs(State(r, |r.steps|)), next, r.attested, id) == [Rebind]
  {
    hide Planned, Succeeds, Kinds, Moving, After, Sound;
    var r, next := Moving(), Layout(false, false, SIDE);
    MovingSteps();
    MovingRuns();
    MovedKinds();
    LayoutStands(false, false, SIDE);
    var end := State(r, |r.steps|);
    assert end[LEAF].live.None? && EnabledIn(next, LEAF) && !IsGroup(next[LEAF]);
    assert Kinds(Specs(end), next, r.attested, LEAF) == [Rebind];
  }

  lemma MovingSteps()
    ensures |Moving().steps| == |Moving().answers| == 1 && Moving().attested == Some((a, b) => a == b)
  {}

  lemma MovedKinds()
    ensures Kinds(Layout(false, true, TOP), Layout(false, false, SIDE), Some((a, b) => a == b), LEAF) == [Rebind]
  {
    LayoutStands(false, true, TOP);
    LayoutStands(false, false, SIDE);
    var was, now := Layout(false, true, TOP), Layout(false, false, SIDE);
    assert Environment(was, LEAF)[0] != Environment(now, LEAF)[0];
    assert now[LEAF] == Leaf(SIDE) && was[LEAF] == Leaf(TOP);
  }

  /** And a second plan onto the same document is not empty. */
  lemma StaleRecordPlansAgain()
    ensures exists r: Run :: Planned(r) && Succeeds(r, |r.steps|) && !Quiet(r, State(r, |r.steps|))
  {
    var r := Moving();
    MovingRuns();
    LayoutStands(false, true, TOP);
    LayoutStands(false, true, SIDE);
    assert Kinds(Specs(State(r, 1)), r.now, r.attested, LEAF) == [Disable];
  }
}
