// Plan application: one step at a time over the entry runtimes, each step's
// failure contained to its own entry.

module Apply {
  import opened Profiles
  import opened Forest
  import opened Contexts
  import opened Diff

  /** A spawned fiber, which keeps the lane it was spawned through. */
  datatype Live = Live(lane: Lane)

  /**
   * One entry's runtime: its applied record, its context while effectively enabled, its fiber, and the
   * divergence an amendment may have left recorded on it.
   */
  datatype Runtime = Runtime(spec: Entry, context: Option<Layers>, live: Option<Live>, fault: Option<Reason> := None)

  type Runtimes = map<EntryId, Runtime>

  datatype Bucket = Created | Restarted | Disposed | Untouched

  datatype Outcome = Done(bucket: Bucket) | Failed(reason: Reason)

  /** What code outside the loader answers one step: a disposal, the lane lookup, a spawn, a restatement. */
  datatype Answer = Answer(disposed: bool, lane: Option<Live>, spawned: bool, restated: bool)

  datatype Effect = Effect(entries: Runtimes, outcome: Outcome)

  // ----- what each step does

  /** The context of an entry: its parent's, one layer further. */
  function Derived(entries: Runtimes, spec: Entry): Option<Layers> {
    match spec.parent
    case None => Some([spec.isolation])
    case Some(parent) =>
      if parent in entries && entries[parent].context.Some? then Some(entries[parent].context.value + [spec.isolation])
      else None
  }

  function Disposal(entries: Runtimes, id: EntryId, spec: Option<Entry>, remove: bool, answer: Answer): Effect {
    if !(remove && spec.None?) && id !in entries then Effect(entries, Failed(NoRuntime)) else
      var was := if id in entries then entries[id].live else None;
      Effect(
        if remove && spec.None? then entries - {id}
        else entries[id := entries[id].(spec := spec.UnwrapOr(entries[id].spec), context := None, live := None)],
        if was.None? then Done(Untouched) else if answer.disposed then Done(Disposed) else Failed(DisposeFailed))
  }

  function Restatement(entries: Runtimes, id: EntryId, spec: Option<Entry>, answer: Answer): Effect {
    if spec.None? then Effect(entries, Failed(NotInDocument))
    else if id !in entries then Effect(entries, Failed(NoRuntime))
    else Effect(
      entries[id := entries[id].(spec := spec.value)],
      if entries[id].live.None? then Done(Untouched)
      else if answer.restated then Done(Restarted) else Failed(LaneFailed))
  }

  function Spawning(entries: Runtimes, id: EntryId, spec: Option<Entry>, answer: Answer): Effect {
    if spec.None? then Effect(entries, Failed(NotInDocument)) else
      var context := Derived(entries, spec.value);
      if context.None? then Effect(entries, Failed(NoParentContext))
      else if IsGroup(spec.value) then Effect(entries[id := Runtime(spec.value, context, None)], Done(Untouched))
      else if answer.lane.None? then Effect(entries, Failed(NoLane))
      else if !answer.spawned then Effect(entries, Failed(LaneFailed))
      else Effect(entries[id := Runtime(spec.value, context, answer.lane)], Done(Created))
  }

  function Tracking(entries: Runtimes, id: EntryId, spec: Option<Entry>): Effect {
    if spec.None? then Effect(entries, Failed(NotInDocument))
    else Effect(entries[id := Runtime(spec.value, None, None)], Done(Untouched))
  }

  /** Whether a live provider's realm for its own service differs between its two contexts. */
  predicate RealmMoved(live: Option<Live>, was: Option<Layers>, now: Layers) {
    live.Some? && live.value.lane.offers.Some? &&
    var service := live.value.lane.offers.value.name;
    was.None? || RealmIn(was.value, service) != RealmIn(now, service)
  }

  function Rebinding(entries: Runtimes, id: EntryId, spec: Option<Entry>): Effect {
    if spec.None? then Effect(entries, Failed(NotInDocument))
    else if id !in entries then Effect(entries, Failed(NoRuntime)) else
      var context := Derived(entries, spec.value);
      if context.None? then Effect(entries, Failed(NoParentContext)) else
        Effect(
          entries[id := entries[id].(spec := spec.value, context := context)],
          Done(if RealmMoved(entries[id].live, entries[id].context, context.value) then Restarted else Untouched))
  }

  function Replacing(entries: Runtimes, id: EntryId, spec: Option<Entry>, answer: Answer): Effect {
    var disposed := Disposal(entries, id, spec, true, answer);
    if disposed.outcome.Failed? then disposed else
      var spawned := Spawning(disposed.entries, id, spec, answer);
      if spawned.outcome.Failed? then spawned else spawned.(outcome := Done(Restarted))
  }

  function Stepped(entries: Runtimes, step: Step, spec: Option<Entry>, answer: Answer): Effect {
    match step.kind
    case Remove => Disposal(entries, step.entry, spec, true, answer)
    case Disable => Disposal(entries, step.entry, spec, false, answer)
    case Rebind => Rebinding(entries, step.entry, spec)
    case Restate => Restatement(entries, step.entry, spec, answer)
    case Replace => Replacing(entries, step.entry, spec, answer)
    case Create => Spawning(entries, step.entry, spec, answer)
    case Enable => Spawning(entries, step.entry, spec, answer)
    case Track => Tracking(entries, step.entry, spec)
  }

  /** The desired record of an entry the index kept. */
  ghost function Wanted(now: Doc, id: EntryId): Option<Entry> {
    if Stands(now, id) then Some(now[id]) else None
  }

  /** The runtimes after the first `k` steps. */
  ghost function After(start: Runtimes, now: Doc, steps: seq<Step>, answers: seq<Answer>, k: nat): Runtimes
    requires k <= |steps| == |answers|
  {
    if k == 0 then start else
      Stepped(After(start, now, steps, answers, k - 1), steps[k - 1], Wanted(now, steps[k - 1].entry),
              answers[k - 1]).entries
  }

  ghost function OutcomeAt(start: Runtimes, now: Doc, steps: seq<Step>, answers: seq<Answer>, k: nat): Outcome
    requires k < |steps| == |answers|
  {
    Stepped(After(start, now, steps, answers, k), steps[k], Wanted(now, steps[k].entry), answers[k]).outcome
  }

  /** The entries whose steps ended in a bucket, in step order. */
  ghost function InBucket(start: Runtimes, now: Doc, steps: seq<Step>, answers: seq<Answer>, k: nat,
                          bucket: Bucket): seq<EntryId>
    requires k <= |steps| == |answers|
  {
    if k == 0 then [] else
      InBucket(start, now, steps, answers, k - 1, bucket)
      + if OutcomeAt(start, now, steps, answers, k - 1) == Done(bucket) then [steps[k - 1].entry] else []
  }

  ghost function Failures(start: Runtimes, now: Doc, steps: seq<Step>, answers: seq<Answer>, k: nat): seq<Fault>
    requires k <= |steps| == |answers|
  {
    if k == 0 then [] else
      var outcome := OutcomeAt(start, now, steps, answers, k - 1);
      Failures(start, now, steps, answers, k - 1)
      + if outcome.Failed? then [Fault(steps[k - 1].entry, outcome.reason)] else []
  }

  /** A step touches its own entry's runtime and no other, whatever it is answered. */
  lemma OnlyItsOwn(entries: Runtimes, step: Step, spec: Option<Entry>, answer: Answer, id: EntryId)
    requires id != step.entry
    ensures var after := Stepped(entries, step, spec, answer).entries;
            (id in after <==> id in entries) && (id in entries ==> after[id] == entries[id])
  {}

  /** An entry that no step names keeps its runtime through the whole application, whatever fails. */
  lemma {:induction false} UnnamedKept(start: Runtimes, now: Doc, steps: seq<Step>, answers: seq<Answer>, k: nat,
                                       id: EntryId)
    requires k <= |steps| == |answers| && KindsOf(steps, id) == []
    ensures var after := After(start, now, steps, answers, k);
            (id in after <==> id in start) && (id in start ==> after[id] == start[id])
  {
    if k > 0 {
      UnnamedKept(start, now, steps, answers, k - 1, id);
      KindsOfNone(steps, id);
      OnlyItsOwn(After(start, now, steps, answers, k - 1), steps[k - 1], Wanted(now, steps[k - 1].entry),
                 answers[k - 1], id);
    }
  }

  /** A disabling step leaves no fiber behind, whatever it is answered; nor does tracking an entry that had none. */
  lemma Inert(entries: Runtimes, step: Step, spec: Option<Entry>, answer: Answer)
    requires step.kind == Disable || (step.kind == Track && (step.entry in entries ==> entries[step.entry].live.None?))
    ensures var after := Stepped(entries, step, spec, answer).entries; step.entry in after ==>
              after[step.entry].live.None?
  {}

  /** A quarantined entry is not live once the plan has been applied, whatever fails on the way. */
  lemma {:induction false} ContainedIsInert(start: Runtimes, now: Doc, steps: seq<Step>, answers: seq<Answer>, k: nat,
                                            id: EntryId)
    requires k <= |steps| == |answers|
    requires KindsOf(steps, id) == [if id in start && start[id].live.Some? then Disable else Track]
    ensures var after := After(start, now, steps, answers, k);
            if KindsOf(steps[..k], id) == [] then (id in after <==> id in start)
            && (id in start ==> after[id] == start[id])
            else id in after ==> after[id].live.None?
    ensures k == |steps| && id in After(start, now, steps, answers, k) ==>
              After(start, now, steps, answers, k)[id].live.None?
  {
    hide Stepped;
    assert steps[..|steps|] == steps;
    if k > 0 {
      ContainedIsInert(start, now, steps, answers, k - 1, id);
      assert steps[..k][..k - 1] == steps[..k - 1];
      assert steps == steps[..k] + steps[k..];
      KindsOfAppend(steps[..k], steps[k..], id);
      if steps[k - 1].entry == id {
        assert KindsOf(steps[..k], id) == KindsOf(steps[..k - 1], id) + [steps[k - 1].kind];
        assert |KindsOf(steps, id)| == 1 && KindsOf(steps[..k], id)[0] == KindsOf(steps, id)[0];
        Inert(After(start, now, steps, answers, k - 1), steps[k - 1], Wanted(now, id), answers[k - 1]);
      } else {
        OnlyItsOwn(After(start, now, steps, answers, k - 1), steps[k - 1], Wanted(now, steps[k - 1].entry),
                   answers[k - 1], id);
      }
    }
  }

  // ----- the loader

  datatype Report = Report(
    created: seq<EntryId>, restarted: seq<EntryId>, disposed: seq<EntryId>, untouched: seq<EntryId>, errors: seq<Fault>)

  class Loader {
    var entries: Runtimes

    constructor ()
      ensures entries == map[]
    {
      entries := map[];
    }

    /**
     * The applied document reconstructed from the runtimes, in no particular order; none before the first
     * reconcile.
     */
    method Applied() returns (applied: Option<seq<Entry>>)
      requires forall id :: id in entries ==> entries[id].spec.id == id
      ensures Records(applied.UnwrapOr([])) == Specs(entries) && Distinct(applied.UnwrapOr([]))
    {
      if entries == map[] { return None; }
      var specs: seq<Entry> := [];
      var rest := entries.Keys;
      while rest != {}
        invariant rest <= entries.Keys && Distinct(specs)
        invariant Records(specs) == map id | id in entries.Keys - rest :: entries[id].spec
        invariant forall i :: 0 <= i < |specs| ==> specs[i].id in entries.Keys - rest
      {
        var id :| id in rest;
        rest := rest - {id};
        assert (specs + [entries[id].spec])[..|specs|] == specs;
        specs := specs + [entries[id].spec];
      }
      applied := Some(specs);
    }

    /** Takes every recorded divergence off its entry. */
    method DrainFaults() returns (drained: seq<Fault>)
      modifies this
      ensures entries == Undiverged(old(entries)) && Divergences(old(entries), drained)
    {
      drained := [];
      ghost var start := entries;
      var rest := entries.Keys;
      while rest != {}
        invariant rest <= entries.Keys == start.Keys
        invariant forall id :: id in start ==> entries[id] == if id in rest then start[id]
                                                              else start[id].(fault := None)
        invariant forall i :: 0 <= i < |drained| ==> drained[i].entry in start && drained[i].entry !in rest
        invariant forall i, j :: 0 <= i < j < |drained| ==> drained[i].entry != drained[j].entry
        invariant forall id, reason :: Fault(id, reason) in drained <==>
                    id in start && id !in rest && start[id].fault == Some(reason)
      {
        var id :| id in rest;
        rest := rest - {id};
        var fault := entries[id].fault;
        entries := entries[id := entries[id].(fault := None)];
        if fault.Some? { drained := drained + [Fault(id, fault.value)]; }
      }
    }

    /** Derives an entry's context under its parent's. */
    method DeriveContext(spec: Entry) returns (context: Option<Layers>)
      ensures context == Derived(entries, spec)
    {
      var parent: Layers := [];
      if spec.parent.Some? {
        if spec.parent.value !in entries || entries[spec.parent.value].context.None? { return None; }
        parent := entries[spec.parent.value].context.value;
      }
      assert [] + [spec.isolation] == [spec.isolation];
      context := Some(parent + [spec.isolation]);
    }

    /** Disposes an entry's fiber; `remove` forgets an entry that left the document. */
    method DisposeStep(id: EntryId, index: EntryIndex, remove: bool, answer: Answer) returns (outcome: Outcome)
      requires index.Valid()
      modifies this
      ensures Effect(entries, outcome) == Disposal(old(entries), id, Wanted(index.doc, id), remove, answer)
    {
      var spec := index.Get(id);
      var live: Option<Live>;
      if remove && spec.None? {
        live := if id in entries then entries[id].live else None;
        entries := entries - {id};
      } else {
        if id !in entries { return Failed(NoRuntime); }
        var runtime := entries[id];
        if spec.Some? { runtime := runtime.(spec := spec.value); }
        live := runtime.live;
        entries := entries[id := runtime.(context := None, live := None)];
      }
      if live.None? { return Done(Untouched); }
      outcome := if answer.disposed then Done(Disposed) else Failed(DisposeFailed);
    }

    method RestateStep(id: EntryId, index: EntryIndex, answer: Answer) returns (outcome: Outcome)
      requires index.Valid()
      modifies this
      ensures Effect(entries, outcome) == Restatement(old(entries), id, Wanted(index.doc, id), answer)
    {
      var spec := index.Get(id);
      if spec.None? { return Failed(NotInDocument); }
      if id !in entries { return Failed(NoRuntime); }
      entries := entries[id := entries[id].(spec := spec.value)];
      if entries[id].live.None? { return Done(Untouched); }
      outcome := if answer.restated then Done(Restarted) else Failed(LaneFailed);
    }

    /** Builds an entry's context and spawns its fiber through its lane; a group only gets its context. */
    method SpawnStep(id: EntryId, index: EntryIndex, answer: Answer) returns (outcome: Outcome)
      requires index.Valid()
      modifies this
      ensures Effect(entries, outcome) == Spawning(old(entries), id, Wanted(index.doc, id), answer)
    {
      var spec := index.Get(id);
      if spec.None? { return Failed(NotInDocument); }
      var context := DeriveContext(spec.value);
      if context.None? { return Failed(NoParentContext); }
      if IsGroup(spec.value) {
        entries := entries[id := Runtime(spec.value, context, None)];
        return Done(Untouched);
      }
      if answer.lane.None? { return Failed(NoLane); }
      if !answer.spawned { return Failed(LaneFailed); }
      entries := entries[id := Runtime(spec.value, context, answer.lane)];
      outcome := Done(Created);
    }

    method TrackStep(id: EntryId, index: EntryIndex) returns (outcome: Outcome)
      requires index.Valid()
      modifies this
      ensures Effect(entries, outcome) == Tracking(old(entries), id, Wanted(index.doc, id))
    {
      var spec := index.Get(id);
      if spec.None? { return Failed(NotInDocument); }
      entries := entries[id := Runtime(spec.value, None, None)];
      outcome := Done(Untouched);
    }

    /** Rebuilds an entry's context; a live provider whose provided realm moved restarts. */
    method RebindStep(id: EntryId, index: EntryIndex) returns (outcome: Outcome)
      requires index.Valid()
      modifies this
      ensures Effect(entries, outcome) == Rebinding(old(entries), id, Wanted(index.doc, id))
    {
      var spec := index.Get(id);
      if spec.None? { return Failed(NotInDocument); }
      if id !in entries { return Failed(NoRuntime); }
      var was := entries[id].context;
      var context := DeriveContext(spec.value);
      if context.None? { return Failed(NoParentContext); }
      entries := entries[id := entries[id].(spec := spec.value, context := context)];
      var moved := RealmMoved(entries[id].live, was, context.value);
      outcome := Done(if moved then Restarted else Untouched);
    }

    method ApplyStep(step: Step, index: EntryIndex, answer: Answer) returns (outcome: Outcome)
      requires index.Valid()
      modifies this
      ensures Effect(entries, outcome) == Stepped(old(entries), step, Wanted(index.doc, step.entry), answer)
    {
      match step.kind {
        case Remove => outcome := DisposeStep(step.entry, index, true, answer);
        case Disable => outcome := DisposeStep(step.entry, index, false, answer);
        case Rebind => outcome := RebindStep(step.entry, index);
        case Restate => outcome := RestateStep(step.entry, index, answer);
        case Replace =>
          outcome := DisposeStep(step.entry, index, true, answer);
          if outcome.Done? {
            outcome := SpawnStep(step.entry, index, answer);
            if outcome.Done? { outcome := Done(Restarted); }
          }
        case Create => outcome := SpawnStep(step.entry, index, answer);
        case Enable => outcome := SpawnStep(step.entry, index, answer);
        case Track => outcome := TrackStep(step.entry, index);
      }
    }

    /** Applies a plan step by step; each outcome is reported for its own entry. */
    method Apply(plan: Plan, index: EntryIndex, answers: seq<Answer>) returns (report: Report)
      requires index.Valid() && |answers| == |plan.steps|
      modifies this
      ensures entries == After(old(entries), index.doc, plan.steps, answers, |plan.steps|)
      ensures report.created == InBucket(old(entries), index.doc, plan.steps, answers, |plan.steps|, Created)
      ensures report.restarted == InBucket(old(entries), index.doc, plan.steps, answers, |plan.steps|, Restarted)
      ensures report.disposed == InBucket(old(entries), index.doc, plan.steps, answers, |plan.steps|, Disposed)
      ensures report.untouched == plan.untouched
              + InBucket(old(entries), index.doc, plan.steps, answers, |plan.steps|, Untouched)
      ensures report.errors == plan.faults + Failures(old(entries), index.doc, plan.steps, answers, |plan.steps|)
    {
      hide Stepped;
      report := Report([], [], [], plan.untouched, plan.faults);
      for k := 0 to |plan.steps|
        invariant index.Valid()
        invariant entries == After(old(entries), index.doc, plan.steps, answers, k)
        invariant report.created == InBucket(old(entries), index.doc, plan.steps, answers, k, Created)
        invariant report.restarted == InBucket(old(entries), index.doc, plan.steps, answers, k, Restarted)
        invariant report.disposed == InBucket(old(entries), index.doc, plan.steps, answers, k, Disposed)
        invariant report.untouched == plan.untouched
                  + InBucket(old(entries), index.doc, plan.steps, answers, k, Untouched)
        invariant report.errors == plan.faults + Failures(old(entries), index.doc, plan.steps, answers, k)
      {
        var step := plan.steps[k];
        var outcome := ApplyStep(step, index, answers[k]);
        match outcome {
          case Done(Created) => report := report.(created := report.created + [step.entry]);
          case Done(Restarted) => report := report.(restarted := report.restarted + [step.entry]);
          case Done(Disposed) => report := report.(disposed := report.disposed + [step.entry]);
          case Done(Untouched) => report := report.(untouched := report.untouched + [step.entry]);
          case Failed(reason) => report := report.(errors := report.errors + [Fault(step.entry, reason)]);
        }
      }
    }
  }

  /** The runtimes with no divergence recorded on any of them. */
  function Undiverged(entries: Runtimes): Runtimes { map id | id in entries :: entries[id].(fault := None) }

  /** Each recorded divergence exactly once, and nothing else. */
  ghost predicate Divergences(entries: Runtimes, drained: seq<Fault>) {
    && (forall i, j :: 0 <= i < j < |drained| ==> drained[i].entry != drained[j].entry)
    && forall id, reason :: Fault(id, reason) in drained <==> id in entries && entries[id].fault == Some(reason)
  }

  /** The applied records by id. */
  function Specs(entries: Runtimes): Doc { map id | id in entries :: entries[id].spec }
}
