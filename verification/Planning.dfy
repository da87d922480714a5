// The fiber planner and the oracle derived from it: which transition is owed,
// what its landing commits, and what a caller is told meanwhile.

module Planning {
  import opened Profiles

  datatype FiberState = Pending | Loading | Active | Unloading | Failed | Disposed

  datatype Cause =
    | InitialLoad | DependencyChanged | ConfigChanged | ExplicitRestart | ExplicitDispose | Suspend | BodyFaulted

  /** The environment an activation is made for; no epoch while a dependency is missing. */
  datatype Aim = Aim(epoch: Option<nat>, revision: nat)

  datatype Desired = Desired(aim: Aim, cause: Cause, disposing: bool, suspending: bool, faulted: bool)

  datatype Committed = Committed(
    state: FiberState, activeFor: Option<Aim>, failedUnder: Option<Aim>, disposalFailed: bool)

  datatype Step = Load(aim: Aim, cause: Cause) | Unload(cause: Cause) | Finish

  const FRESH := Committed(Pending, None, None, false)

  /** The single transition owed by the gap between what landed and what is wanted. */
  function Plan(c: Committed, d: Desired): Option<Step> {
    match c.state
    case Disposed => None
    case Loading => None
    case Unloading => None
    case Active =>
      if d.disposing then Some(Unload(ExplicitDispose))
      else if d.suspending then Some(Unload(Suspend))
      else if d.faulted then Some(Unload(BodyFaulted))
      else if c.activeFor == Some(d.aim) then None
      else Some(Unload(d.cause))
    case _ =>
      if d.disposing || d.suspending then (if c.disposalFailed then None else Some(Finish))
      else if d.aim.epoch.None? then None
      else if c.state == Failed && c.failedUnder == Some(d.aim) then None
      else Some(Load(d.aim, d.cause))
  }

  /** What a clean unload commits. */
  function Unloaded(c: Committed): Committed { c.(state := Pending, activeFor := None) }

  function Activated(c: Committed, aim: Aim): Committed {
    c.(state := Active, activeFor := Some(aim), failedUnder := None)
  }

  /** A failure is committed before the cleanup it causes. */
  function FailedUnder(c: Committed, aim: Option<Aim>): Committed {
    c.(state := Failed, activeFor := None, failedUnder := aim)
  }

  function DisposalLanded(c: Committed, clean: bool): Committed {
    if clean then c.(state := Disposed) else c.(state := Failed, disposalFailed := true)
  }

  /** What one transition commits: a load that succeeds or fails, a withdrawal that is clean or not. */
  function Landed(c: Committed, d: Desired, step: Step, clean: bool): Committed {
    match step
    case Load(aim, _) => if clean then Activated(c, aim) else FailedUnder(c, Some(aim))
    case Unload(cause) =>
      if cause == BodyFaulted then FailedUnder(c, c.activeFor)
      else if d.disposing || d.suspending then DisposalLanded(c, clean)
      else if clean then Unloaded(c)
      else FailedUnder(c, Some(d.aim))
    case Finish => DisposalLanded(c, clean)
  }

  /** A launch drops the fault the previous incarnation left pending. */
  function DesiredAfter(d: Desired, step: Step): Desired { if step.Load? then d.(faulted := false) else d }

  predicate InFlight(state: FiberState) { state == Loading || state == Unloading }

  // ----- settling

  /** One round of the supervisor with the target held: the planned transition, if any, and its landing. */
  function Round(c: Committed, d: Desired, clean: bool): (Committed, Desired) {
    match Plan(c, d)
    case None => (c, d)
    case Some(step) => (Landed(c, d, step, clean), DesiredAfter(d, step))
  }

  /** The states in which nothing is owed. */
  predicate AtRest(c: Committed, d: Desired) {
    || c.state == Disposed
    || (c.state == Failed && c.disposalFailed && (d.disposing || d.suspending))
    || (!d.disposing && !d.suspending &&
        ((c.state == Active && !d.faulted && c.activeFor == Some(d.aim))
        || (c.state == Failed && c.failedUnder == Some(d.aim))
        || (c.state in {Pending, Failed} && d.aim.epoch.None?)))
  }

  /**
   * With the target held, at most two transitions run from any state with nothing in flight, however each
   * lands, and what they reach is one of the named states of rest.
   */
  lemma SettlesInTwo(c: Committed, d: Desired, first: bool, second: bool)
    requires !InFlight(c.state) && (c.disposalFailed ==> c.state == Failed)
    ensures var (c1, d1) := Round(c, d, first); var (c2, d2) := Round(c1, d1, second);
            Plan(c2, d2) == None && AtRest(c2, d2)
  {
    var (c1, d1) := Round(c, d, first);
    if Plan(c1, d1).None? {
      assert AtRest(c1, d1);
    }
  }

  /** Nothing is planned exactly in the states of rest. */
  lemma NothingPlannedAtRest(c: Committed, d: Desired)
    requires !InFlight(c.state)
    ensures Plan(c, d) == None <==>
              AtRest(c, d) || (c.state == Pending && c.disposalFailed && (d.disposing || d.suspending))
  {}

  /** Two are sometimes needed. */
  lemma TwoAreNeeded()
    ensures exists c: Committed, d: Desired :: !InFlight(c.state) && !c.disposalFailed &&
              var (c1, d1) := Round(c, d, true); Plan(c1, d1).Some?
  {
    var c := Activated(FRESH, Aim(Some(0), 0));
    var d := Desired(Aim(Some(0), 1), ConfigChanged, false, false, false);
    var (c1, d1) := Round(c, d, true);
    assert Plan(c1, d1) == Some(Load(d.aim, d.cause));
  }

  // ----- the oracle

  datatype Owed = Reload | Disposal | Suspension | Stalled

  predicate Serves(c: Committed, d: Desired) {
    match c.state
    case Disposed => d.disposing || d.suspending
    case Active => !d.disposing && !d.suspending && !d.faulted && c.activeFor == Some(d.aim)
    case _ => false
  }

  function Requested(c: Committed, d: Desired): Option<Owed> {
    if c.disposalFailed then None
    else if d.disposing then Some(Disposal)
    else if d.suspending then Some(Suspension)
    else None
  }

  /** An unload that ends the fiber's service rather than replacing it. */
  predicate Terminal(cause: Cause) { cause == ExplicitDispose || cause == Suspend || cause == BodyFaulted }

  predicate Loads(step: Option<Step>) { step.Some? && step.value.Load? }

  predicate ReloadScheduled(c: Committed, d: Desired) {
    match Plan(c, d)
    case Some(Load(_, _)) => true
    case Some(Unload(cause)) => !Terminal(cause) && Loads(Plan(Unloaded(c), d))
    case Some(Finish) => false
    case None => InFlight(c.state) && !d.faulted && Loads(Plan(Unloaded(c), d))
  }

  /** What the gap owes; nothing when what landed serves what is wanted. */
  function OwedBy(c: Committed, d: Desired): Option<Owed> {
    if Serves(c, d) then None
    else if Requested(c, d).Some? then Requested(c, d)
    else if ReloadScheduled(c, d) then Some(Reload)
    else Some(Stalled)
  }

  /** With the target held and every landing clean, the fiber comes to serve the aim it has now. */
  predicate ReachesActive(c: Committed, d: Desired) {
    var (c1, d1) := Round(c, d, true);
    var (c2, d2) := Round(c1, d1, true);
    c2.state == Active && c2.activeFor == Some(d.aim) && d2.aim == d.aim
  }

  /** The next transition is a fault's or another unload that promises no replacement. */
  predicate EndsService(c: Committed, d: Desired) {
    match Plan(c, d)
    case Some(Unload(cause)) => Terminal(cause)
    case _ => false
  }

  /**
   * Exactly when a reload is promised, nothing in flight: nothing serves now, clean landings reach the
   * desired aim, and the next transition does not end this fiber's service.
   */
  lemma ReloadIsEarned(c: Committed, d: Desired)
    requires !InFlight(c.state) && (c.disposalFailed ==> c.state == Failed)
    ensures OwedBy(c, d) == Some(Reload) <==> !Serves(c, d) && ReachesActive(c, d) && !EndsService(c, d)
  {
    var (c1, d1) := Round(c, d, true);
    if c.state == Active && Plan(c, d).Some? {
      var step := Plan(c, d).value;
      assert step.Unload?;
    }
  }

  /** A serving fiber owes no transition; a stall is never answered where the planner would load now. */
  lemma AnswersAgreeWithPlan(c: Committed, d: Desired)
    ensures OwedBy(c, d) == None ==> Plan(c, d) == None
    ensures OwedBy(c, d) == Some(Stalled) ==> !Loads(Plan(c, d))
    ensures OwedBy(c, d) in {Some(Disposal), Some(Suspension)} && !InFlight(c.state) && c.state != Disposed ==>
              Plan(c, d).Some? && !Loads(Plan(c, d))
  {}

  /** While the aim an incarnation failed under, or a dead one served, is still desired, no reload is promised. */
  lemma DoomedNeverPromises(c: Committed, d: Desired)
    requires (c.state == Failed && c.failedUnder == Some(d.aim)) || (c.state == Active && d.faulted)
    ensures OwedBy(c, d) != Some(Reload)
  {}

  /** A dead incarnation's aim moving on does bring a replacement, which the answer does not promise. */
  lemma DeadButMovedIsReplaced(c: Committed, d: Desired)
    requires c.state == Active && d.faulted && !d.disposing && !d.suspending && !c.disposalFailed
    ensures OwedBy(c, d) == Some(Stalled)
    ensures ReachesActive(c, d) <==> d.aim.epoch.Some? && c.activeFor != Some(d.aim)
  {
    var (c1, d1) := Round(c, d, true);
    assert c1 == FailedUnder(c, c.activeFor);
  }

  /**
   * A load in flight leaves the state it was planned from committed, so a reload is promised meanwhile
   * whatever is reported of the incarnation. Held to a clean landing, the promise is kept exactly unless
   * that incarnation already reported its own death under the aim still desired.
   */
  lemma PromiseInFlight(c: Committed, d: Desired, aim: Aim)
    requires c.state in {Pending, Failed} && OwedBy(c, d) == Some(Reload)
    ensures var landed := Activated(c, aim);
            Serves(landed, d) || ReachesActive(landed, d) <==> !(d.faulted && aim == d.aim)
  {
    var landed := Activated(c, aim);
    var (c1, d1) := Round(landed, d, true);
    if d.faulted { assert c1 == FailedUnder(landed, Some(aim)); }
  }
}
