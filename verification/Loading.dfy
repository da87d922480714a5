// One reconcile from end to end: the applied records, the diff, the quarantine
// of dependency cycles, the save, and the application.

module Loading {
  import opened Profiles
  import opened Forest
  import opened Contexts
  import opened Diff
  import opened Apply
  import opened Cycles
  import opened Lookup
  import opened Reconcile
  import opened Grounding
  import opened Settling
  import Tarjan

  // ----- what quarantine does to a plan's order

  lemma OrderedMore(was: Doc, now: Doc, steps: seq<Step>, step: Step)
    ensures Ordered(was, now, steps + [step]) <==>
              Ordered(was, now, steps) && forall x :: x in steps ==> Before(was, now, x, step)
  {
    hide Before;
    var more := steps + [step];
    if Ordered(was, now, more) {
      forall x | x in steps ensures Before(was, now, x, step) {
        var i :| 0 <= i < |steps| && steps[i] == x;
        assert Before(was, now, more[i], more[|steps|]);
      }
      forall i, j | 0 <= i < j < |steps| ensures Before(was, now, steps[i], steps[j]) {
        assert Before(was, now, more[i], more[j]);
      }
    }
  }

  lemma {:induction false} OthersHold(steps: seq<Step>, members: set<EntryId>, x: Step)
    ensures x in Others(steps, members) <==> x in steps && x.entry !in members
  {
    if steps != [] {
      OthersHold(steps[..|steps| - 1], members, x);
      assert steps == steps[..|steps| - 1] + [steps[|steps| - 1]];
    }
  }

  /** The steps outside a set keep the order of the whole. */
  lemma {:induction false} OthersOrdered(was: Doc, now: Doc, steps: seq<Step>, members: set<EntryId>)
    requires Ordered(was, now, steps)
    ensures Ordered(was, now, Others(steps, members))
  {
    hide Before, Ordered;
    if steps == [] {
      NoneOrdered(was, now);
    } else {
      var before, last := steps[..|steps| - 1], steps[|steps| - 1];
      assert steps == before + [last];
      OrderedMore(was, now, before, last);
      OthersOrdered(was, now, before, members);
      OrderedMore(was, now, Others(before, members), last);
      forall x | x in Others(before, members) ensures Before(was, now, x, last) { OthersHold(before, members, x); }
      assert Others(before, members) + [] == Others(before, members);
    }
  }

  lemma NoneOrdered(was: Doc, now: Doc)
    ensures Ordered(was, now, [])
  {}

  /** And that order is all that is left of the plan's. */
  lemma {:induction false} OthersApart(was: Doc, now: Doc, steps: seq<Step>, members: set<EntryId>, i: nat, j: nat)
    requires Ordered(was, now, Others(steps, members)) && i < j < |steps|
    requires steps[i].entry !in members && steps[j].entry !in members
    ensures Before(was, now, steps[i], steps[j])
  {
    hide Before, Ordered;
    var before, last := steps[..|steps| - 1], steps[|steps| - 1];
    OrderedMore(was, now, Others(before, members), last);
    if j < |steps| - 1 {
      assert Others(before, members) + [] == Others(before, members);
      OthersApart(was, now, before, members, i, j);
    } else {
      assert before[i] == steps[i];
      OthersHold(before, members, steps[i]);
    }
  }

  lemma QuarantinedOrder(r: Run, plan: seq<Step>)
    requires Ordered(Specs(r.start), r.now, plan) && Others(r.steps, r.contained) == Others(plan, r.contained)
    ensures InPlanOrder(r)
  {
    OthersOrdered(Specs(r.start), r.now, plan, r.contained);
    forall i, j | 0 <= i < j < |r.steps| && r.steps[i].entry !in r.contained && r.steps[j].entry !in r.contained
      ensures Before(Specs(r.start), r.now, r.steps[i], r.steps[j])
    {
      OthersApart(Specs(r.start), r.now, r.steps, r.contained, i, j);
    }
  }

  /** A cycle member is enabled: only enabled entries are charted. */
  lemma LoopEnabled(m: Doc, lanes: Lanes, id: EntryId)
    requires InChartedLoop(m, lanes, id)
    ensures EnabledIn(m, id)
  {
    var walk :| ChartedLoop(m, lanes, walk) && walk[0] == id;
    assert Charted(m, lanes, walk[0], walk[1]);
  }

  // ----- one reconcile

  /**
   * Reconciles the runtime onto a document. When the document cannot be saved nothing changes; otherwise every
   * recorded divergence is taken off its entry and reported once, the quarantined plan is applied, and no
   * entry on a dependency cycle is left running. Once every step has succeeded and every context followed,
   * a dependency cycle is left among what runs only where a fiber kept a lane other than the charted one.
   * `down` are the entries earlier quarantines left with a record and no fiber.
   */
  method ReconcileWith(loader: Loader, profile: seq<Entry>, attested: Attestation, lanes: Lanes, saved: bool,
                       world: nat -> Answer, ghost down: set<EntryId>)
      returns (report: Option<Report>, ghost run: Run, ghost plan: Plan, ghost drained: seq<Fault>)
    requires |profile| < Tarjan.UNSEEN
    requires forall id :: id in loader.entries ==> loader.entries[id].spec.id == id
    modifies loader
    ensures report.Some? <==> saved
    ensures !saved ==> loader.entries == old(loader.entries)
    ensures run.start == Undiverged(old(loader.entries)) && run.down == down
    ensures run.now == Records(profile) && run.attested == attested
    ensures forall id :: id in run.contained <==> InChartedLoop(run.now, lanes, id)
    ensures |run.answers| == |run.steps| && forall id :: KindsOf(run.steps, id) == Needs(run, id)
    ensures Consistent(run.start, down) && Sound(run.now) ==> Planned(run)
    ensures saved ==> loader.entries == State(run, |run.steps|)
    ensures saved ==> forall id :: id in run.contained && id in loader.entries ==> loader.entries[id].live.None?
    ensures saved ==> Reports(run, plan, drained, report.value) && Divergences(old(loader.entries), drained)
    ensures forall id :: id in run.contained ==> Fault(id, DependencyCycle) in plan.faults
    ensures Sound(run.now) && Distinct(profile) ==> FaultsEach(plan.faults, run.contained)
    ensures saved && Converged(run) && ReadAlike(run.now) ==>
              forall walk :: LiveLoop(loader.entries, walk) ==> LeavesChart(loader.entries, lanes, walk)
  {
    hide Kinds, KindsOf, InChartedLoop, Consistent, Sound, After;
    hide Stands, Contained, Ordered, Others, InPlanOrder, Succeeds;
    hide Grounded, ChildrenWait, ReadAlike, LiveLoop, LeavesChart, FaultsEach, Divergences, Reports;
    ghost var start := Undiverged(loader.entries);
    var applied := loader.Applied();
    var diff := MakePlan(applied, profile, attested);
    var index := new EntryIndex(profile);
    assert Specs(start) == Specs(loader.entries) && Running(start) == Running(loader.entries);
    var quarantined;
    ghost var members;
    quarantined, members := QuarantineCycles(diff, index, lanes, Running(loader.entries));
    FaultedInAll(diff, quarantined, members);
    plan := quarantined;
    var answers := seq(|quarantined.steps|, world);
    run := Run(start, down, index.doc, attested, members, quarantined.steps, answers);
    QuarantinedOrder(run, diff.steps);
    forall id | id in run.contained ensures EnabledIn(run.now, id) { LoopEnabled(run.now, lanes, id); }
    drained := [];
    if !saved { return None, run, plan, drained; }
    RunLeaves(run, lanes);
    var applying, undone := Commit(loader, quarantined, index, answers, run);
    drained := undone;
    report := Some(applying);
  }

  /** What the report says: the plan's faults first, then what each step came to, then the divergences. */
  ghost predicate Reports(r: Run, plan: Plan, drained: seq<Fault>, report: Report)
    requires |r.steps| == |r.answers|
  {
    && report.created == InBucket(r.start, r.now, r.steps, r.answers, |r.steps|, Created)
    && report.restarted == InBucket(r.start, r.now, r.steps, r.answers, |r.steps|, Restarted)
    && report.disposed == InBucket(r.start, r.now, r.steps, r.answers, |r.steps|, Disposed)
    && report.untouched == plan.untouched + InBucket(r.start, r.now, r.steps, r.answers, |r.steps|, Untouched)
    && report.errors == plan.faults + Failures(r.start, r.now, r.steps, r.answers, |r.steps|) + drained
  }

  /** Once the document is saved: the recorded divergences are drained and the plan applied. */
  method Commit(loader: Loader, plan: Plan, index: EntryIndex, answers: seq<Answer>, ghost run: Run)
      returns (report: Report, drained: seq<Fault>)
    requires index.Valid() && run.steps == plan.steps && run.answers == answers && |answers| == |plan.steps|
    requires run.now == index.doc && run.start == Undiverged(loader.entries)
    modifies loader
    ensures loader.entries == State(run, |run.steps|)
    ensures Reports(run, plan, drained, report) && Divergences(old(loader.entries), drained)
  {
    hide After, InBucket, Failures, Divergences;
    drained := loader.DrainFaults();
    report := loader.Apply(plan, index, answers);
    report := report.(errors := report.errors + drained);
  }

  lemma RunLeaves(run: Run, lanes: Lanes)
    requires |run.steps| == |run.answers| && forall id :: id in run.contained <==> InChartedLoop(run.now, lanes, id)
    requires forall id :: KindsOf(run.steps, id) == Needs(run, id)
    ensures forall id :: id in run.contained && id in State(run, |run.steps|) ==> State(run, |run.steps|)[id].live.None?
    ensures Converged(run) && ReadAlike(run.now) ==> forall walk ::
              LiveLoop(State(run, |run.steps|), walk) ==> LeavesChart(State(run, |run.steps|), lanes, walk)
  {
    hide After, InChartedLoop, ReadAlike, LiveLoop, LeavesChart;
    hide Kinds, KindsOf, Planned, Grounded, Succeeds, ChildrenWait;
    forall id | id in run.contained && id in State(run, |run.steps|) ensures State(run, |run.steps|)[id].live.None? {
      ContainedIsInert(run.start, run.now, run.steps, run.answers, |run.steps|, id);
    }
    if Converged(run) && ReadAlike(run.now) {
      forall walk | LiveLoop(State(run, |run.steps|), walk) ensures LeavesChart(State(run, |run.steps|), lanes, walk) {
        ConvergedLoopLeavesChart(run, lanes, walk);
      }
    }
  }

  lemma FaultedInAll(plan: Plan, quarantined: Plan, members: set<EntryId>)
    requires plan.faults <= quarantined.faults && FaultsEach(quarantined.faults[|plan.faults|..], members)
    ensures forall id :: id in members ==> Fault(id, DependencyCycle) in quarantined.faults
    ensures plan.faults == [] ==> FaultsEach(quarantined.faults, members)
  {
    assert quarantined.faults[0..] == quarantined.faults;
    forall id | id in members ensures Fault(id, DependencyCycle) in quarantined.faults {
      assert Fault(id, DependencyCycle) in quarantined.faults[|plan.faults|..];
    }
  }

  // ----- dependency cycles among what runs

  /** What a live entry's stored context finds: the slot a live entry provides, for a service its own lane injects. */
  ghost predicate FindsLiveFor(entries: Runtimes, a: EntryId, b: EntryId, service: Service) {
    && a in entries && b in entries && entries[a].live.Some? && entries[b].live.Some?
    && entries[a].context.Some? && entries[b].context.Some?
    && service in entries[a].live.value.lane.injects && entries[b].live.value.lane.offers == Some(service)
    && Sees(entries[a].context.value, service.name, RealmIn(entries[b].context.value, service.name))
  }

  ghost predicate FindsLive(entries: Runtimes, a: EntryId, b: EntryId) {
    exists service :: FindsLiveFor(entries, a, b, service)
  }

  /** A closed walk of at least one dependency among live entries. */
  ghost predicate LiveLoop(entries: Runtimes, walk: seq<EntryId>) {
    && |walk| >= 2 && walk[0] == walk[|walk| - 1]
    && forall i :: 0 <= i < |walk| - 1 ==> FindsLive(entries, walk[i], walk[i + 1])
  }

  /** A live entry's own lane is the one registered for its package. */
  predicate AsCharted(entries: Runtimes, lanes: Lanes, id: EntryId)
    requires id in entries && entries[id].live.Some?
  {
    var package := entries[id].spec.plugin.package;
    package in lanes && lanes[package] == entries[id].live.value.lane
  }

  /** The live entry runs on another lane than the one registered for its package, if any is. */
  predicate OffChart(entries: Runtimes, lanes: Lanes, id: EntryId) {
    id in entries && entries[id].live.Some? && !AsCharted(entries, lanes, id)
  }

  ghost predicate LeavesChart(entries: Runtimes, lanes: Lanes, walk: seq<EntryId>) {
    exists i :: 0 <= i < |walk| && OffChart(entries, lanes, walk[i])
  }

  /** Live entries are enabled in the document, run its plugins, and hold the contexts its ancestry gives. */
  ghost predicate RunsAs(entries: Runtimes, m: Doc) {
    forall id :: id in entries && entries[id].live.Some? ==>
      EnabledIn(m, id) && entries[id].spec.plugin == m[id].plugin && entries[id].context == Some(Ancestry(m, id))
  }

  /**
   * From a runtime that is what its records say, every step has succeeded and every child waited for its moved
   * parent.
   */
  ghost predicate Converged(r: Run) {
    Planned(r) && Grounded(r.start) && Succeeds(r, |r.steps|) && ChildrenWait(r)
  }

  /** What a converged reconcile leaves running is what the document says, quarantined entries aside. */
  lemma ConvergedRunsAs(r: Run)
    requires Converged(r)
    ensures RunsAs(State(r, |r.steps|), r.now)
    ensures forall id :: id in r.contained && id in State(r, |r.steps|) ==> State(r, |r.steps|)[id].live.None?
  {
    var end := State(r, |r.steps|);
    hide Planned, Grounded, Succeeds, ChildrenWait, After, Disabled, Stands;
    Converges(r);
    ContextsFollow(r);
    forall id | id in end && end[id].live.Some?
      ensures EnabledIn(r.now, id) && end[id].spec.plugin == r.now[id].plugin
              && end[id].context == Some(Ancestry(r.now, id))
    {
      assert Settled(r, end, id);
      StandsWithin(r.now, id);
      assert Up(r, id) && Held(end, id) && ContextIs(end, id, Ancestry(r.now, id));
    }
    forall id | id in r.contained && id in end ensures end[id].live.None? { assert Settled(r, end, id); }
  }

  /**
   * After a converged reconcile whose quarantine took every charted loop, a loop of dependencies is live only
   * through an entry whose fiber runs on another lane than the charted one. When every spawn took the charted
   * lane, that fiber is one the reconcile found and never spawned anew.
   */
  lemma ConvergedLoopLeavesChart(r: Run, lanes: Lanes, walk: seq<EntryId>)
    requires Converged(r) && ReadAlike(r.now) && forall id :: id in r.contained <==> InChartedLoop(r.now, lanes, id)
    requires LiveLoop(State(r, |r.steps|), walk)
    ensures LeavesChart(State(r, |r.steps|), lanes, walk)
    ensures SpawnsCharted(r, lanes) ==>
              exists i :: 0 <= i < |walk| && KeptFiber(r, walk[i]) && OffChart(State(r, |r.steps|), lanes, walk[i])
  {
    var end := State(r, |r.steps|);
    hide InChartedLoop, After, ReadAlike, RunsAs, Planned, Grounded;
    hide ChildrenWait, LiveLoop, OffChart, KeptFiber, SpawnsCharted, Succeeds;
    ConvergedRunsAs(r);
    LiveLoopLeavesChart(end, r.now, lanes, walk);
    var i :| 0 <= i < |walk| && OffChart(end, lanes, walk[i]);
    if SpawnsCharted(r, lanes) { OffChartIsKept(r, lanes, walk[i]); }
  }

  /**
   * When what runs is what the document says, and no entry on a charted loop is live, a closed walk of
   * dependencies among the live entries takes an entry that runs on another lane than the charted one.
   */
  lemma LiveLoopLeavesChart(entries: Runtimes, m: Doc, lanes: Lanes, walk: seq<EntryId>)
    requires ReadAlike(m) && RunsAs(entries, m)
    requires forall id :: InChartedLoop(m, lanes, id) && id in entries ==> entries[id].live.None?
    requires LiveLoop(entries, walk)
    ensures LeavesChart(entries, lanes, walk)
  {
    if forall i :: 0 <= i < |walk| ==> !OffChart(entries, lanes, walk[i]) {
      assert FindsLive(entries, walk[0], walk[1]);
      FoundLive(entries, m, lanes, walk[0], walk[1]);
      forall i | 0 <= i < |walk| - 1 ensures Finds(m, lanes, walk[i], walk[i + 1]) {
        assert FindsLive(entries, walk[i], walk[i + 1]);
        FoundLive(entries, m, lanes, walk[i], walk[i + 1]);
      }
      NoCycleRuns(m, lanes, {}, walk);
    }
  }

  lemma FoundLive(entries: Runtimes, m: Doc, lanes: Lanes, a: EntryId, b: EntryId)
    requires RunsAs(entries, m) && FindsLive(entries, a, b)
    requires !OffChart(entries, lanes, a) && !OffChart(entries, lanes, b)
    ensures a in entries && entries[a].live.Some? && Finds(m, lanes, a, b)
  {
    var service :| FindsLiveFor(entries, a, b, service);
    assert FindsFor(m, lanes, a, b, service);
  }

  /** Every lane a spawn was given is the one registered for the package it spawned. */
  ghost predicate SpawnsCharted(r: Run, lanes: Lanes) {
    forall i :: 0 <= i < |r.steps| == |r.answers| && Spawns(r.steps[i].kind)
                && r.steps[i].entry in r.now && r.answers[i].lane.Some? ==>
      var package := r.now[r.steps[i].entry].plugin.package;
      package in lanes && r.answers[i].lane.value.lane == lanes[package]
  }

  /** No step up to `k` spawns the entry. */
  predicate Unspawned(r: Run, id: EntryId, k: nat)
    requires k <= |r.steps|
  {
    forall i :: 0 <= i < k && r.steps[i].entry == id ==> !Spawns(r.steps[i].kind)
  }

  /** The entry's fiber is the one it had, on the lane it had. */
  ghost predicate KeptFiber(r: Run, id: EntryId)
    requires |r.steps| == |r.answers|
  {
    var end := State(r, |r.steps|);
    && Unspawned(r, id, |r.steps|) && id in r.start && id in end && r.start[id].live.Some?
    && end[id].live == r.start[id].live
  }

  /** A fiber is the one the entry had, or runs on the lane its last spawn was given. */
  lemma {:induction false} LiveFrom(r: Run, k: nat, id: EntryId)
    requires k <= |r.steps| == |r.answers| && Succeeds(r, k) && id in State(r, k) && State(r, k)[id].live.Some?
    ensures var live := State(r, k)[id].live;
            if Unspawned(r, id, k) then id in r.start && live == r.start[id].live
            else exists i :: 0 <= i < k && r.steps[i].entry == id && Spawns(r.steps[i].kind)
                             && r.answers[i].lane == live
  {
    hide After;
    if k == 0 {
      NoneRun(r);
    } else {
      OutcomeIs(r, k - 1);
      StepLive(State(r, k - 1), r.steps[k - 1], Wanted(r.now, r.steps[k - 1].entry), r.answers[k - 1], id);
      if !(r.steps[k - 1].entry == id && Spawns(r.steps[k - 1].kind)) { LiveFrom(r, k - 1, id); }
    }
  }

  lemma NoneRun(r: Run)
    requires |r.steps| == |r.answers|
    ensures State(r, 0) == r.start
  {}

  lemma StepLive(entries: Runtimes, step: Step, spec: Option<Entry>, answer: Answer, id: EntryId)
    requires Stepped(entries, step, spec, answer).outcome.Done?
    requires var after := Stepped(entries, step, spec, answer).entries; id in after && after[id].live.Some?
    ensures var live := Stepped(entries, step, spec, answer).entries[id].live;
            if id == step.entry && Spawns(step.kind) then live == answer.lane
            else id in entries && live == entries[id].live
  {}

  lemma OffChartIsKept(r: Run, lanes: Lanes, id: EntryId)
    requires Converged(r) && SpawnsCharted(r, lanes) && OffChart(State(r, |r.steps|), lanes, id)
    ensures KeptFiber(r, id)
  {
    hide After, RunsAs, Posed, InPlanOrder, Needs, KindsOf, Grounded, ChildrenWait, Succeeds;
    LiveFrom(r, |r.steps|, id);
    ConvergedPlugin(r, id);
    if !Unspawned(r, id, |r.steps|) { assert false; }
  }

  lemma ConvergedPlugin(r: Run, id: EntryId)
    requires Converged(r) && id in State(r, |r.steps|) && State(r, |r.steps|)[id].live.Some?
    ensures id in r.now && State(r, |r.steps|)[id].spec.plugin == r.now[id].plugin
  {
    hide Converged, After;
    ConvergedRunsAs(r);
    StandsWithin(r.now, id);
  }

  // ----- a loop that survives

  const FIRST := EntryId("first")

  const SECOND := EntryId("second")

  const HERE := Service("s", 0)

  const THERE := Service("t", 0)

  /** One plugin injects what the other provides, and the other way round. */
  const FIRST_LANE := Lane([HERE], Some(THERE))

  const SECOND_LANE := Lane([THERE], Some(HERE))

  const BOTH: Lanes := map["p" := FIRST_LANE, "q" := SECOND_LANE]

  function Plugin(id: EntryId, package: string): Entry {
    Entry(id, PluginRef(package, "", ""), Config(""), false, None, [])
  }

  function Pair(): Doc { map[FIRST := Plugin(FIRST, "p"), SECOND := Plugin(SECOND, "q")] }

  /** The first plugin runs, its lane is withdrawn, and the document gains the second. */
  ghost function Joining(): Run {
    Run(map[FIRST := Runtime(Pair()[FIRST], Some([[]]), Some(Live(FIRST_LANE)))], {},
        Pair(), Some((a, b) => a == b), {},
        [Step(SECOND, Create)], [Answer(true, Some(Live(SECOND_LANE)), true, true)])
  }

  lemma PairIs()
    ensures var m := Pair();
            && Sound(m) && (forall id :: EnabledIn(m, id) <==> id in {FIRST, SECOND})
            && (forall id :: Stands(m, id) <==> id in {FIRST, SECOND})
            && Environment(m, FIRST) == [(FIRST, [])] && Ancestry(m, FIRST) == [[]] && Ancestry(m, SECOND) == [[]]
  {
    var m := Pair();
    DepthIs(m, FIRST, 0);
    DepthIs(m, SECOND, 0);
    forall id | Stands(m, id) ensures id in {FIRST, SECOND} { StandsWithin(m, id); }
  }

  lemma AloneIs()
    ensures var m: Doc := map[FIRST := Plugin(FIRST, "p")];
            && Sound(m) && (forall id :: EnabledIn(m, id) <==> id == FIRST)
            && (forall id :: Stands(m, id) <==> id == FIRST)
            && Environment(m, FIRST) == [(FIRST, [])] && Ancestry(m, FIRST) == [[]]
  {
    var m: Doc := map[FIRST := Plugin(FIRST, "p")];
    DepthIs(m, FIRST, 0);
    forall id | Stands(m, id) ensures id == FIRST { StandsWithin(m, id); }
  }

  lemma JoiningRuns()
    ensures Converged(Joining())
    ensures State(Joining(), 1) ==
              Joining().start[SECOND := Runtime(Pair()[SECOND], Some([[]]), Some(Live(SECOND_LANE)))]
  {
    var r := Joining();
    PairIs();
    AloneIs();
    assert Specs(r.start) == map[FIRST := Plugin(FIRST, "p")];
    assert r.steps[..0] == [];
    forall id ensures KindsOf(r.steps, id) == Needs(r, id) { JoiningNeeds(id); }
    assert After(r.start, r.now, r.steps, r.answers, 0) == r.start;
    assert Wanted(r.now, SECOND) == Some(Pair()[SECOND]);
    assert forall id :: id in r.now ==> r.now[id].parent.None?;
  }

  lemma JoiningNeeds(id: EntryId)
    ensures Needs(Joining(), id) == if id == SECOND then [Create] else []
  {
    PairIs();
    AloneIs();
    assert Specs(Joining().start) == map[FIRST := Plugin(FIRST, "p")];
  }

  /** Without the first plugin's lane nothing is charted from or to it, and the second finds only itself. */
  lemma OneLaneNoLoop(id: EntryId)
    ensures !InChartedLoop(Pair(), map["q" := SECOND_LANE], id)
  {
    var lanes: Lanes := map["q" := SECOND_LANE];
    if InChartedLoop(Pair(), lanes, id) {
      var walk :| ChartedLoop(Pair(), lanes, walk) && walk[0] == id;
      var found := Charted(Pair(), lanes, walk[0], walk[1]);
    }
  }

  /**
   * A converged reconcile of a document without a charted loop leaves a loop live, through a fiber whose lane
   * was withdrawn; with both lanes registered the same document charts it.
   */
  lemma WithdrawnLaneHidesLoop()
    ensures var r, lanes: Lanes := Joining(), map["q" := SECOND_LANE]; var loop := [FIRST, SECOND, FIRST];
            && Converged(r) && ReadAlike(r.now) && SpawnsCharted(r, lanes)
            && r.contained == {} && (forall id :: !InChartedLoop(r.now, lanes, id))
            && LiveLoop(State(r, 1), loop) && ChartedLoop(r.now, BOTH, loop)
  {
    hide Converged, After, LiveLoop, ChartedLoop;
    var r, lanes: Lanes := Joining(), map["q" := SECOND_LANE];
    JoiningRuns();
    DistinctReadAlike(Pair());
    forall id ensures !InChartedLoop(r.now, lanes, id) { OneLaneNoLoop(id); }
    PairLoops(State(r, 1));
    PairCharted();
  }

  lemma PairLoops(end: Runtimes)
    requires end == Joining().start[SECOND := Runtime(Pair()[SECOND], Some([[]]), Some(Live(SECOND_LANE)))]
    ensures LiveLoop(end, [FIRST, SECOND, FIRST])
  {
    var one: Layers := [[]];
    assert one[..0] == [];
    assert FindsLiveFor(end, FIRST, SECOND, HERE) && FindsLiveFor(end, SECOND, FIRST, THERE);
  }

  lemma PairCharted()
    ensures ChartedLoop(Pair(), BOTH, [FIRST, SECOND, FIRST])
  {
    PairIs();
    assert ChartedFor(Pair(), BOTH, FIRST, SECOND, HERE) && ChartedFor(Pair(), BOTH, SECOND, FIRST, THERE);
  }

  // ----- what a quarantine leaves behind

  const SELF := EntryId("self")

  const OWN := Service("s", 0)

  /** A lane that injects the very service it provides. */
  const LOOPING: Lanes := map["p" := Lane([OWN], Some(OWN))]

  /** One plugin of that lane's package. */
  function Looped(): Doc { map[SELF := Entry(SELF, PluginRef("p", "", ""), Config(""), false, None, [])] }

  /** Its first reconcile: it is quarantined. */
  ghost function Quarantining(): Run {
    Run(map[], {}, Looped(), Some((a, b) => a == b), {SELF}, [Step(SELF, Track)], [Answer(true, None, true, true)])
  }

  lemma LoopedIs()
    ensures var m := Looped();
            && Sound(m) && (forall id :: EnabledIn(m, id) <==> id == SELF)
            && (forall id :: Stands(m, id) <==> id == SELF)
            && (forall id :: InChartedLoop(m, LOOPING, id) <==> id == SELF)
            && (forall id :: !InChartedLoop(m, map[], id))
  {
    var m := Looped();
    DepthIs(m, SELF, 0);
    assert ChartedFor(m, LOOPING, SELF, SELF, OWN);
    assert ChartedLoop(m, LOOPING, [SELF, SELF]);
    forall id | Stands(m, id) ensures id == SELF { StandsWithin(m, id); }
    forall id | InChartedLoop(m, LOOPING, id) ensures id == SELF { LoopEnabled(m, LOOPING, id); }
    forall id ensures !InChartedLoop(m, map[], id) { NoLaneNoLoop(m, id); }
  }

  lemma NoLaneNoLoop(m: Doc, id: EntryId)
    ensures !InChartedLoop(m, map[], id)
  {
    if InChartedLoop(m, map[], id) {
      var walk :| ChartedLoop(m, map[], walk) && walk[0] == id;
      var found := Charted(m, map[], walk[0], walk[1]);
    }
  }

  lemma QuarantiningRuns()
    ensures Planned(Quarantining()) && Succeeds(Quarantining(), 1)
    ensures State(Quarantining(), 1) == map[SELF := Runtime(Looped()[SELF], None, None)]
  {
    var r := Quarantining();
    LoopedIs();
    NothingConsistent();
    assert r.steps[..0] == [];
    forall id ensures KindsOf(r.steps, id) == Needs(r, id) { StandsWithin(Specs(r.start), id); }
    assert After(r.start, r.now, r.steps, r.answers, 0) == r.start;
    assert Wanted(r.now, SELF) == Some(Looped()[SELF]);
  }

  /**
   * A reconcile that quarantines and whose every step succeeds leaves a member's record enabled with
   * nothing running; even once the lanes form no loop, the next plan onto the same document has no step
   * for it, so it is never spawned.
   */
  lemma QuarantinedStaysDown()
    ensures var r := Quarantining(); var end := State(r, 1);
            && Planned(r) && Succeeds(r, 1) && (forall id :: id in r.contained <==> InChartedLoop(r.now, LOOPING, id))
            && !Consistent(end, {}) && (forall id :: !InChartedLoop(r.now, map[], id))
            && EnabledIn(r.now, SELF) && SELF in end && end[SELF].live.None?
            && Kinds(Specs(end), r.now, r.attested, SELF) == []
  {
    hide Planned, Succeeds, Sound, After, InChartedLoop, Consistent;
    var r := Quarantining();
    QuarantiningRuns();
    LoopedIs();
    StaysConsistentWhen(r);
    assert Specs(State(r, 1)) == Looped();
  }
}
