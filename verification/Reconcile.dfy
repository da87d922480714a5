// What a whole reconcile does: when every step of its plan succeeds, the runtime
// converges on the document, but for what was quarantined.

module Reconcile {
  import opened Profiles
  import opened Forest
  import opened Contexts
  import opened Diff
  import opened Apply

  /**
   * One application of a plan from a runtime onto a document. `down` are the entries earlier quarantines left
   * with a record that reads enabled and nothing running; `contained` are those quarantined out of this plan.
   */
  datatype Run = Run(
    start: Runtimes, down: set<EntryId>, now: Doc, attested: Attestation, contained: set<EntryId>,
    steps: seq<Step>, answers: seq<Answer>)

  function Running(entries: Runtimes): set<EntryId> { set id | id in entries && entries[id].live.Some? }

  ghost predicate EnabledIn(m: Doc, id: EntryId) { Stands(m, id) && !Disabled(m, id) }

  /**
   * The runtime is what its own applied records say: contexts and fibers exactly where enabled, but for the
   * entries that are down, which are enabled without a fiber.
   */
  ghost predicate Consistent(entries: Runtimes, down: set<EntryId>) {
    var m := Specs(entries);
    && Sound(m) && down <= entries.Keys
    && forall id :: id in entries ==>
         if id in down then EnabledIn(m, id) && entries[id].live.None?
         else && (entries[id].context.Some? <==> EnabledIn(m, id))
              && (entries[id].live.Some? <==> EnabledIn(m, id) && !IsGroup(m[id]))
  }

  /** Every stored context is the one the records' ancestry gives. */
  ghost predicate Grounded(entries: Runtimes) {
    var m := Specs(entries);
    forall id :: id in entries && entries[id].context.Some? && Stands(m, id) ==>
      entries[id].context.value == Ancestry(m, id)
  }

  /** The steps one entry needs: a quarantined one only its containment. */
  ghost function Needs(r: Run, id: EntryId): seq<StepKind> {
    if id in r.contained then [Containment(id, Running(r.start))] else Kinds(Specs(r.start), r.now, r.attested, id)
  }

  /** Quarantine leaves the other entries' steps in the plan's order; a containment stands anywhere. */
  ghost predicate InPlanOrder(r: Run) {
    forall i, j :: 0 <= i < j < |r.steps| && r.steps[i].entry !in r.contained && r.steps[j].entry !in r.contained ==>
      Before(Specs(r.start), r.now, r.steps[i], r.steps[j])
  }

  /** A consistent runtime and a fault-free document, only enabled entries being quarantined. */
  ghost predicate Posed(r: Run) {
    Consistent(r.start, r.down) && Sound(r.now) && forall id :: id in r.contained ==> EnabledIn(r.now, id)
  }

  ghost predicate Planned(r: Run) {
    && |r.answers| == |r.steps| && Posed(r)
    && (forall id :: KindsOf(r.steps, id) == Needs(r, id))
    && InPlanOrder(r)
  }

  /** Enabled in the document and not quarantined: what a reconcile is to bring up. */
  ghost predicate Active(r: Run, id: EntryId) { EnabledIn(r.now, id) && id !in r.contained }

  /** Active, and not down under the plugin it keeps: what a reconcile leaves running, groups aside. */
  ghost predicate Up(r: Run, id: EntryId) {
    Active(r, id) && (id in r.down ==> id in r.start && r.start[id].spec.plugin != r.now[id].plugin)
  }

  /** The kinds of one entry's steps among the first `k`. */
  function Ran(r: Run, k: nat, id: EntryId): seq<StepKind>
    requires k <= |r.steps|
  {
    KindsOf(r.steps[..k], id)
  }

  ghost function State(r: Run, k: nat): Runtimes
    requires k <= |r.steps| == |r.answers|
  {
    After(r.start, r.now, r.steps, r.answers, k)
  }

  ghost predicate Succeeds(r: Run, k: nat)
    requires k <= |r.steps| == |r.answers|
  {
    forall i :: 0 <= i < k ==> OutcomeAt(r.start, r.now, r.steps, r.answers, i).Done?
  }

  lemma RanStep(r: Run, k: nat, id: EntryId)
    requires k < |r.steps|
    ensures Ran(r, k + 1, id) == if r.steps[k].entry == id then Ran(r, k, id) + [r.steps[k].kind] else Ran(r, k, id)
  {
    assert r.steps[..k + 1][..k] == r.steps[..k];
  }

  /** An entry's steps run in the order it needs them. */
  lemma RanPrefix(r: Run, k: nat, id: EntryId)
    requires Planned(r) && k <= |r.steps|
    ensures Ran(r, k, id) <= Needs(r, id)
    ensures k == |r.steps| ==> Ran(r, k, id) == Needs(r, id)
  {
    assert r.steps == r.steps[..k] + r.steps[k..];
    KindsOfAppend(r.steps[..k], r.steps[k..], id);
  }

  lemma {:induction false} KindAmong(steps: seq<Step>, id: EntryId, kind: StepKind)
    requires kind in KindsOf(steps, id)
    ensures Step(id, kind) in steps
  {
    if steps[|steps| - 1] != Step(id, kind) { KindAmong(steps[..|steps| - 1], id, kind); }
  }

  lemma PlanKinds(r: Run, id: EntryId)
    requires Planned(r)
    ensures KindsOf(r.steps, id) == Needs(r, id)
  {}

  /** A step an entry needs and has not run is still to come. */
  lemma StillToCome(r: Run, k: nat, id: EntryId, kind: StepKind) returns (j: nat)
    requires Planned(r) && k <= |r.steps| && kind in Needs(r, id) && kind !in Ran(r, k, id)
    ensures k <= j < |r.steps| && r.steps[j] == Step(id, kind)
  {
    hide Planned, Needs, KindsOf;
    PlanKinds(r, id);
    var rest := r.steps[k..];
    assert r.steps == r.steps[..k] + rest;
    KindsOfAppend(r.steps[..k], rest, id);
    KindAmong(rest, id, kind);
    var i :| 0 <= i < |rest| && rest[i] == Step(id, kind);
    j := k + i;
  }

  /** A needed step that has not run comes no earlier than the one at hand. */
  lemma NotYet(r: Run, k: nat, id: EntryId, kind: StepKind)
    requires Planned(r) && k < |r.steps| && kind in Needs(r, id) && kind !in Ran(r, k, id) && r.steps[k].entry != id
    requires id !in r.contained && r.steps[k].entry !in r.contained
    ensures Before(Specs(r.start), r.now, r.steps[k], Step(id, kind))
  {
    var j := StillToCome(r, k, id, kind);
  }

  // ----- what one entry has come to

  /** An entry's runtime once its steps `done` have succeeded. */
  ghost predicate Expected(start: Runtimes, now: Doc, entries: Runtimes, id: EntryId, done: seq<StepKind>) {
    if done == [] then (id in entries <==> id in start) && (id in start ==> entries[id] == start[id]) else
      var last := done[|done| - 1];
      if last == Remove then id !in entries
      else
        && id in entries && id in now && entries[id].spec == now[id]
        && (if last == Disable || last == Track then entries[id].context.None? && entries[id].live.None?
            else if last == Rebind || last == Restate then
              && id in start && entries[id].live == start[id].live
              && if done == [Restate] then entries[id].context == start[id].context else entries[id].context.Some?
            else entries[id].context.Some? && (entries[id].live.Some? <==> !IsGroup(now[id])))
  }

  /** What needing a step says about the entry in the two documents. */
  lemma NeedSays(r: Run, id: EntryId, kind: StepKind)
    requires Posed(r) && kind in Needs(r, id)
    ensures kind == Remove ==> id !in r.now && !Stands(r.now, id)
    ensures kind != Remove ==> Stands(r.now, id) && id in r.now
    ensures kind in {Disable, Rebind, Restate, Replace} ==>
              EnabledIn(Specs(r.start), id) && id in r.start && (id !in r.down ==> r.start[id].context.Some?)
    ensures kind in {Rebind, Restate} ==> Specs(r.start)[id].plugin == r.now[id].plugin
    ensures kind == Replace ==> Specs(r.start)[id].plugin != r.now[id].plugin
    ensures kind in {Create, Enable} ==> id !in r.down
    ensures Active(r, id) <==> kind in {Create, Enable, Rebind, Restate, Replace}
    ensures kind == Create ==> id !in r.start
    ensures kind == Enable ==> id in r.start && r.start[id].context.None?
  {
    StandsWithin(Specs(r.start), id);
    StandsWithin(r.now, id);
  }

  lemma NeedsShape(r: Run, id: EntryId, done: seq<StepKind>, kind: StepKind)
    requires done + [kind] <= Needs(r, id)
    ensures kind in Needs(r, id) && (done == [] || (kind == Restate && done == [Rebind]))
  {
    var needs := Needs(r, id);
    assert kind == needs[|done|];
    assert |needs| <= 2 && (|needs| == 2 ==> needs == [Rebind, Restate]);
    if |done| == 1 { assert done[0] == (done + [kind])[0] == needs[0]; }
  }

  /** One successful step takes its own entry on by one kind. */
  lemma StepExpected(r: Run, entries: Runtimes, step: Step, answer: Answer, done: seq<StepKind>)
    requires Posed(r) && done + [step.kind] <= Needs(r, step.entry)
    requires Expected(r.start, r.now, entries, step.entry, done)
    requires Stepped(entries, step, Wanted(r.now, step.entry), answer).outcome.Done?
    ensures Expected(r.start, r.now, Stepped(entries, step, Wanted(r.now, step.entry), answer).entries, step.entry,
                     done + [step.kind])
  {
    hide Stepped, Expected, Kinds, Consistent, Sound, Stands, Disabled;
    NeedsShape(r, step.entry, done, step.kind);
    NeedSays(r, step.entry, step.kind);
    if step.kind == Rebind || step.kind == Restate {
      KeepingExpected(r, entries, step, answer, done);
    } else {
      assert done + [step.kind] == [step.kind];
      FreshExpected(r, entries, step, answer);
    }
  }

  lemma KeepingExpected(r: Run, entries: Runtimes, step: Step, answer: Answer, done: seq<StepKind>)
    requires step.kind in {Rebind, Restate} && (done == [] || (step.kind == Restate && done == [Rebind]))
    requires step.entry in r.start && Stands(r.now, step.entry) && step.entry in r.now
    requires Expected(r.start, r.now, entries, step.entry, done)
    requires Stepped(entries, step, Wanted(r.now, step.entry), answer).outcome.Done?
    ensures Expected(r.start, r.now, Stepped(entries, step, Wanted(r.now, step.entry), answer).entries, step.entry,
                     done + [step.kind])
  {
    hide Stands;
    assert (done + [step.kind])[|done|] == step.kind;
  }

  lemma FreshExpected(r: Run, entries: Runtimes, step: Step, answer: Answer)
    requires step.kind !in {Rebind, Restate}
    requires (step.kind == Remove <==> !Stands(r.now, step.entry)) && (step.kind != Remove ==> step.entry in r.now)
    requires Expected(r.start, r.now, entries, step.entry, [])
    requires Stepped(entries, step, Wanted(r.now, step.entry), answer).outcome.Done?
    ensures Expected(r.start, r.now, Stepped(entries, step, Wanted(r.now, step.entry), answer).entries, step.entry,
                     [step.kind])
  {
    hide Stands;
  }

  lemma NoneRan(r: Run, id: EntryId)
    ensures Ran(r, 0, id) == [] && Expected(r.start, r.now, r.start, id, [])
  {}

  lemma OutcomeIs(r: Run, k: nat)
    requires k < |r.steps| == |r.answers|
    ensures OutcomeAt(r.start, r.now, r.steps, r.answers, k) ==
              Stepped(State(r, k), r.steps[k], Wanted(r.now, r.steps[k].entry), r.answers[k]).outcome
    ensures State(r, k + 1) == Stepped(State(r, k), r.steps[k], Wanted(r.now, r.steps[k].entry), r.answers[k]).entries
  {}

  lemma OthersExpected(r: Run, entries: Runtimes, step: Step, answer: Answer, id: EntryId, done: seq<StepKind>)
    requires Expected(r.start, r.now, entries, id, done) && id != step.entry
    ensures Expected(r.start, r.now, Stepped(entries, step, Wanted(r.now, step.entry), answer).entries, id, done)
  {
    OnlyItsOwn(entries, step, Wanted(r.now, step.entry), answer, id);
  }

  lemma {:induction false} Progress(r: Run, k: nat, id: EntryId)
    requires Planned(r) && k <= |r.steps| && Succeeds(r, k)
    ensures Expected(r.start, r.now, State(r, k), id, Ran(r, k, id))
  {
    hide Expected, Stepped, Kinds, Consistent, InPlanOrder, Sound, KindsOf, OutcomeAt;
    if k == 0 {
      NoneRan(r, id);
    } else {
      var step := r.steps[k - 1];
      Progress(r, k - 1, id);
      RanStep(r, k - 1, id);
      RanPrefix(r, k, id);
      if step.entry == id {
        OutcomeIs(r, k - 1);
        StepExpected(r, State(r, k - 1), step, r.answers[k - 1], Ran(r, k - 1, id));
      } else {
        OutcomeIs(r, k - 1);
        OthersExpected(r, State(r, k - 1), step, r.answers[k - 1], id, Ran(r, k - 1, id));
      }
    }
  }

  // ----- convergence

  /** A record kept for the wanted one: equal, or equal up to a config its own equality attests. */
  predicate SameRecord(attested: Attestation, kept: Entry, wanted: Entry) {
    kept == wanted || (kept.(config := wanted.config) == wanted && !Restates(attested, kept.config, wanted.config))
  }

  /** Disabled in the applied records and in the document alike. */
  ghost predicate StillDisabled(r: Run, id: EntryId) {
    var was := Specs(r.start);
    Stands(was, id) && Disabled(was, id) && Stands(r.now, id) && Disabled(r.now, id)
  }

  lemma {:induction false} EnvironmentSize(m: Doc, id: EntryId, k: nat)
    requires Rooted(m, id, k)
    ensures |EnvironmentWithin(m, id, k)| == k + 1 && EnvironmentWithin(m, id, k)[k] == (m[id].id, m[id].isolation)
    decreases k
  {
    if k > 0 { EnvironmentSize(m, m[id].parent.value, k - 1); }
  }

  /** Equal environments come from equal ancestry: the same parent and the same isolation. */
  lemma SameEnvironment(a: Doc, b: Doc, id: EntryId)
    requires Sound(a) && Sound(b) && Stands(a, id) && Stands(b, id) && Environment(a, id) == Environment(b, id)
    ensures a[id].parent == b[id].parent && a[id].isolation == b[id].isolation && Ancestry(a, id) == Ancestry(b, id)
  {
    var j, k := Depth(a, id), Depth(b, id);
    EnvironmentSize(a, id, j);
    EnvironmentSize(b, id, k);
    if j > 0 {
      EnvironmentSize(a, a[id].parent.value, j - 1);
      EnvironmentSize(b, b[id].parent.value, k - 1);
      assert Environment(a, id)[j - 1].0 == a[id].parent.value;
      assert Environment(b, id)[k - 1].0 == b[id].parent.value;
    }
  }

  lemma EnabledSelf(m: Doc, id: EntryId)
    requires EnabledIn(m, id)
    ensures !m[id].disabled
    ensures m[id].parent.Some? ==> EnabledIn(m, m[id].parent.value)
  {
    if m[id].parent.Some? { ParentStands(m, id); }
  }

  /**
   * What one entry has come to when every step has succeeded. One that stays down has no fiber; whether it
   * holds a context is left to its own steps.
   */
  ghost predicate Settled(r: Run, end: Runtimes, id: EntryId) {
    && (id in end <==> id in r.now)
    && (id in end ==>
          && (end[id].context.Some? ==> Active(r, id)) && (Up(r, id) ==> end[id].context.Some?)
          && (end[id].live.Some? <==> Up(r, id) && !IsGroup(r.now[id]))
          && if StillDisabled(r, id) then id in r.start && end[id] == r.start[id]
             else SameRecord(r.attested, end[id].spec, r.now[id]))
  }

  lemma NothingNeeded(r: Run, id: EntryId)
    requires Posed(r) && Needs(r, id) == []
    ensures id in r.start <==> id in r.now
    ensures id in r.start ==> Stands(Specs(r.start), id) && Stands(r.now, id)
    ensures id in r.start ==> (EnabledIn(Specs(r.start), id) <==> EnabledIn(r.now, id))
    ensures id in r.start && EnabledIn(r.now, id) ==>
              Environment(Specs(r.start), id) == Environment(r.now, id)
              && SameRecord(r.attested, r.start[id].spec, r.now[id])
  {
    var was := Specs(r.start);
    if id in r.start && EnabledIn(r.now, id) {
      SameEnvironment(was, r.now, id);
      EnabledSelf(was, id);
      EnabledSelf(r.now, id);
    }
    StandsWithin(was, id);
    StandsWithin(r.now, id);
  }

  lemma ExpectedSettles(r: Run, end: Runtimes, id: EntryId)
    requires Posed(r) && Expected(r.start, r.now, end, id, Needs(r, id))
    ensures Settled(r, end, id)
  {
    var needs := Needs(r, id);
    if needs == [] {
      NothingNeeded(r, id);
      hide Kinds, Sound, Stands, Disabled, Environment;
    } else {
      NeedSays(r, id, needs[|needs| - 1]);
      NotStillDisabled(r, id);
      hide Kinds, Sound, Stands, Disabled, Environment, StillDisabled;
    }
  }

  lemma NotStillDisabled(r: Run, id: EntryId)
    requires Posed(r) && Needs(r, id) != []
    ensures !StillDisabled(r, id)
    ensures |Needs(r, id)| <= 2 && (|Needs(r, id)| == 2 ==> Needs(r, id) == [Rebind, Restate])
  {}

  /**
   * Convergence, from whatever earlier quarantines left: when every step succeeds, the runtime holds exactly
   * the document's entries, fibers run exactly for enabled non-group entries that were neither quarantined
   * nor already down under their plugin, and every record is the document's, save those of entries disabled
   * on both sides, which stay as they were.
   */
  lemma Converges(r: Run)
    requires Planned(r) && Succeeds(r, |r.steps|)
    ensures forall id :: Settled(r, State(r, |r.steps|), id)
  {
    forall id ensures Settled(r, State(r, |r.steps|), id) {
      Progress(r, |r.steps|, id);
      RanPrefix(r, |r.steps|, id);
      ExpectedSettles(r, State(r, |r.steps|), id);
    }
  }

  // ----- when every step succeeds

  /** Everything outside the loader answers well: disposals land, lanes exist, spawns and restatements are taken. */
  ghost predicate Obliging(answers: seq<Answer>) {
    forall i :: 0 <= i < |answers| ==>
      answers[i].disposed && answers[i].lane.Some? && answers[i].spawned && answers[i].restated
  }

  /** A rebound or replaced entry's parent, if it has one, was enabled before the reconcile. */
  ghost predicate ParentsWereEnabled(r: Run) {
    forall id :: (Rebind in Needs(r, id) || Replace in Needs(r, id)) && id in r.now && r.now[id].parent.Some? ==>
      EnabledIn(Specs(r.start), r.now[id].parent.value)
  }

  predicate Derives(kind: StepKind) { kind == Rebind || kind == Replace || kind == Create || kind == Enable }

  /** An entry's parent, if it has one, has a context. */
  ghost predicate HasParentContext(entries: Runtimes, spec: Entry) {
    spec.parent.Some? ==> spec.parent.value in entries && entries[spec.parent.value].context.Some?
  }

  /** A well-answered step that the entry needs now fails only for want of the parent's context. */
  lemma FailsOnlyForParent(r: Run, entries: Runtimes, step: Step, answer: Answer, done: seq<StepKind>)
    requires Posed(r) && done + [step.kind] <= Needs(r, step.entry)
    requires Expected(r.start, r.now, entries, step.entry, done)
    requires answer.disposed && answer.lane.Some? && answer.spawned && answer.restated
    ensures Stepped(entries, step, Wanted(r.now, step.entry), answer).outcome.Done? <==>
              (Derives(step.kind) ==> step.entry in r.now && HasParentContext(entries, r.now[step.entry]))
  {
    NeedsShape(r, step.entry, done, step.kind);
    NeedSays(r, step.entry, step.kind);
    NotItsOwnParent(r.now, step.entry);
    hide Kinds, Consistent, Sound, Stands, Disabled;
  }

  lemma NotItsOwnParent(m: Doc, id: EntryId)
    ensures Stands(m, id) ==> m[id].parent != Some(id)
  {
    if Stands(m, id) && m[id].parent == Some(id) { ParentStands(m, id); }
  }

  /** The entry held a context when the reconcile began. */
  predicate Held(entries: Runtimes, id: EntryId) { id in entries && entries[id].context.Some? }

  /** Whether an enabled parent holds a context once its steps so far have succeeded. */
  lemma ParentRuntime(r: Run, entries: Runtimes, parent: EntryId, done: seq<StepKind>)
    requires Posed(r) && EnabledIn(r.now, parent)
    requires Expected(r.start, r.now, entries, parent, done) && done <= Needs(r, parent)
    ensures done == [] || done == [Restate] ==> (Held(entries, parent) <==> Held(r.start, parent))
    ensures done != [] && done != [Restate] ==> (Held(entries, parent) <==> parent !in r.contained)
    ensures parent in r.contained ==> done != [Restate]
  {
    if done != [] {
      assert done[|done| - 1] in Needs(r, parent);
      NeedSays(r, parent, done[|done| - 1]);
      hide Kinds, Consistent, Sound, Stands, Disabled;
    }
  }

  /** What is not down held a context exactly where enabled. */
  lemma HeldWhen(r: Run, id: EntryId)
    requires Posed(r)
    ensures id !in r.down ==> (Held(r.start, id) <==> EnabledIn(Specs(r.start), id))
    ensures Held(r.start, id) ==> EnabledIn(Specs(r.start), id)
  {
    StandsWithin(Specs(r.start), id);
  }

  lemma ParentEnabled(r: Run, id: EntryId, kind: StepKind)
    requires Posed(r) && kind in Needs(r, id) && Derives(kind) && r.now[id].parent.Some?
    ensures var parent := r.now[id].parent.value;
            id !in r.contained && EnabledIn(r.now, parent) && Depth(r.now, parent) + 1 == Depth(r.now, id)
            && parent != id
  {
    NeedSays(r, id, kind);
    EnabledSelf(r.now, id);
    ParentStands(r.now, id);
  }

  /** What comes to be enabled needs one step, its creation. */
  lemma NewlyEnabled(r: Run, id: EntryId)
    requires Posed(r) && Active(r, id) && !EnabledIn(Specs(r.start), id)
    ensures Needs(r, id) == [if Stands(Specs(r.start), id) then Enable else Create]
  {}

  /**
   * By the time a step derives under a parent that was not enabled before, the parent's creation has run, or
   * is in a later phase.
   */
  lemma CreatedBefore(r: Run, k: nat, parent: EntryId)
    requires Planned(r) && k < |r.steps| && Derives(r.steps[k].kind) && r.steps[k].kind in Needs(r, r.steps[k].entry)
    requires r.now[r.steps[k].entry].parent == Some(parent)
    requires !EnabledIn(Specs(r.start), parent) && parent !in r.contained
    ensures EnabledIn(r.now, parent)
    ensures r.steps[k].kind in {Create, Enable} ==> Ran(r, k, parent) != []
    ensures r.steps[k].kind in {Rebind, Replace} ==> Ran(r, k, parent) == []
    ensures Ran(r, k, parent) != [Restate]
  {
    hide Kinds, Consistent, Sound, KindsOf, InPlanOrder, Stands, Disabled;
    var step := r.steps[k];
    PlannedIs(r);
    ParentEnabled(r, step.entry, step.kind);
    NewlyEnabled(r, parent);
    var kind := Needs(r, parent)[0];
    RanPrefix(r, k, parent);
    if Ran(r, k, parent) == [] {
      NotYet(r, k, parent, kind);
    } else if step.kind == Rebind || step.kind == Replace {
      assert Ran(r, k, parent) == [kind];
      RanEarlier(r, k, parent, kind);
    }
  }

  /** A step that has run comes no later than the one at hand. */
  lemma RanEarlier(r: Run, k: nat, id: EntryId, kind: StepKind)
    requires Planned(r) && k < |r.steps| && kind in Ran(r, k, id) && id !in r.contained
             && r.steps[k].entry !in r.contained
    ensures Before(Specs(r.start), r.now, Step(id, kind), r.steps[k])
  {
    KindAmong(r.steps[..k], id, kind);
    var i :| 0 <= i < k && r.steps[..k][i] == Step(id, kind);
    assert r.steps[i] == Step(id, kind);
  }

  /**
   * Step `k` finds a context to derive from: its parent's, which a containment takes away, a creation gives,
   * and an entry that is down may lack until its own steps bring it one.
   */
  ghost predicate ParentReady(r: Run, k: nat)
    requires k < |r.steps|
  {
    var step := r.steps[k];
    Derives(step.kind) && step.entry in r.now && r.now[step.entry].parent.Some? ==>
      var parent := r.now[step.entry].parent.value;
      if parent in r.contained then Held(r.start, parent) && Ran(r, k, parent) == []
      else if parent in r.down then Ran(r, k, parent) in {[], [Restate]} ==> Held(r.start, parent)
      else step.kind in {Rebind, Replace} ==> EnabledIn(Specs(r.start), parent)
  }

  /** With everything answered well, a step succeeds exactly when its parent is ready. */
  lemma StepSucceedsWhen(r: Run, k: nat)
    requires Planned(r) && k < |r.steps| && Obliging(r.answers) && Succeeds(r, k)
    ensures r.steps[k].kind in Needs(r, r.steps[k].entry)
    ensures OutcomeAt(r.start, r.now, r.steps, r.answers, k).Done? <==> ParentReady(r, k)
  {
    hide Kinds, Consistent, Sound, KindsOf, Stepped, Expected, Disabled, Stands, InPlanOrder;
    var step := r.steps[k];
    var done := Ran(r, k, step.entry);
    RanStep(r, k, step.entry);
    RanPrefix(r, k + 1, step.entry);
    Progress(r, k, step.entry);
    PlannedIs(r);
    NeedsShape(r, step.entry, done, step.kind);
    NeedSays(r, step.entry, step.kind);
    FailsOnlyForParent(r, State(r, k), step, r.answers[k], done);
    OutcomeIs(r, k);
    if Derives(step.kind) && r.now[step.entry].parent.Some? {
      var parent := r.now[step.entry].parent.value;
      ParentEnabled(r, step.entry, step.kind);
      Progress(r, k, parent);
      RanPrefix(r, k, parent);
      ParentRuntime(r, State(r, k), parent, Ran(r, k, parent));
      HeldWhen(r, parent);
      DownEnabled(r, parent);
      if !EnabledIn(Specs(r.start), parent) && parent !in r.contained { CreatedBefore(r, k, parent); }
    }
  }

  lemma DownEnabled(r: Run, id: EntryId)
    requires Posed(r)
    ensures id in r.down ==> EnabledIn(Specs(r.start), id)
  {}

  lemma PlannedIs(r: Run)
    requires Planned(r)
    ensures Posed(r) && Consistent(r.start, r.down) && Sound(r.now)
  {}

  /**
   * When everything outside answers well, every step succeeds exactly when each finds its parent ready;
   * with nothing quarantined now or before, exactly when no rebound or replaced entry hangs under a parent that only
   * this reconcile brings up.
   */
  lemma SucceedsWhen(r: Run)
    requires Planned(r) && Obliging(r.answers)
    ensures Succeeds(r, |r.steps|) <==> forall k :: 0 <= k < |r.steps| ==> ParentReady(r, k)
    ensures r.contained == {} && r.down == {} ==> (Succeeds(r, |r.steps|) <==> ParentsWereEnabled(r))
  {
    hide Kinds, Consistent, Sound, KindsOf, Stepped, Expected, Disabled, Stands, InPlanOrder, OutcomeAt, ParentReady;
    if forall k :: 0 <= k < |r.steps| ==> ParentReady(r, k) {
      for k := 0 to |r.steps|
        invariant Succeeds(r, k)
      {
        StepSucceedsWhen(r, k);
      }
    }
    if Succeeds(r, |r.steps|) {
      forall k | 0 <= k < |r.steps| ensures ParentReady(r, k) { StepSucceedsWhen(r, k); }
    }
    if r.contained == {} && r.down == {} { AllReadyWhen(r); }
  }

  /**
   * With nothing quarantined, every step's parent is ready exactly when those of rebound and replaced entries
   * were enabled.
   */
  lemma AllReadyWhen(r: Run)
    requires Planned(r) && r.contained == {} && r.down == {}
    ensures (forall k :: 0 <= k < |r.steps| ==> ParentReady(r, k)) <==> ParentsWereEnabled(r)
  {
    hide Kinds, Consistent, Sound, KindsOf, Disabled, Stands, InPlanOrder;
    if ParentsWereEnabled(r) {
      forall k | 0 <= k < |r.steps| ensures ParentReady(r, k) { StepNeeded(r, k); }
    }
    if forall k :: 0 <= k < |r.steps| ==> ParentReady(r, k) {
      forall id | (Rebind in Needs(r, id) || Replace in Needs(r, id)) && id in r.now && r.now[id].parent.Some?
        ensures EnabledIn(Specs(r.start), r.now[id].parent.value)
      {
        var kind := if Rebind in Needs(r, id) then Rebind else Replace;
        NoneRan(r, id);
        var j := StillToCome(r, 0, id, kind);
        assert ParentReady(r, j);
      }
    }
  }

  /** Every step of the plan is one its entry needs. */
  lemma StepNeeded(r: Run, k: nat)
    requires Planned(r) && k < |r.steps|
    ensures r.steps[k].kind in Needs(r, r.steps[k].entry)
    ensures Ran(r, k, r.steps[k].entry) + [r.steps[k].kind] <= Needs(r, r.steps[k].entry)
  {
    RanStep(r, k, r.steps[k].entry);
    RanPrefix(r, k + 1, r.steps[k].entry);
    NeedsShape(r, r.steps[k].entry, Ran(r, k, r.steps[k].entry), r.steps[k].kind);
  }
}
