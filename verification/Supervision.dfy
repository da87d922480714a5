// The supervisor loop against an environment that writes its cell at any point:
// a state machine whose every action is one critical section, the supervisor's
// own reads, launches, landings and withdrawals among them.

module Supervision {
  import opened Profiles
  import opened Planning
  import opened Steering

  /** Where the supervisor task stands. */
  datatype Place =
    | Top                                   // about to read the probe
    | Syncing(asked: nat)                   // about to mirror the readiness signal
    | Observing(asked: nat, version: nat)   // about to read the gap and plan
    | Settling(asked: nat, version: nat, stamp: nat, c: Committed, d: Desired)
    | Acking(asked: nat, version: nat, stamp: nat, c: Committed, d: Desired)
    | Waiting
    | Launching(aim: Aim)
    | Activating(aim: Aim)                  // the body runs
    | Landing(aim: Aim, ok: bool)           // about to commit its outcome
    | Publishing                            // about to mirror the signal after a success
    | Finishing                             // about to read why nothing live is ended
    | Withdrawing(cause: Cause, finish: bool) // effects replay
    | Withdrawn(finish: bool, clean: bool)  // the report is in
    | Judging(clean: bool, d: Desired)      // the target is read, about to commit
    | Faulting                              // about to commit a dead incarnation
    | Cleaning                              // the failure is committed, its effects replay
    | Halted

  /** What had been written when a caller asked to be told of rest. */
  datatype Ask = Ask(moved: nat, version: nat, disposing: bool, suspending: bool)

  /** What the supervisor had read when it last acknowledged. */
  datatype Ack = Ack(stamp: nat, version: nat, c: Committed, d: Desired)

  /** `version` counts the signal's moves; `asks` and `acked` are history. */
  datatype Fiber = Fiber(
    inner: Inner, place: Place, signal: Option<nat>, version: nat,
    probe: nat, settled: nat, asks: map<nat, Ask>, acked: Option<Ack>)

  datatype Action =
    | Restart(cause: Cause) | Dispose | Suspend | Signal(epoch: Option<nat>) | Fault(incarnation: nat) | Quiesce
    | Absorb
    | Tick(ok: bool)

  function Spawned(epoch: Option<nat>): Fiber { Fiber(Initial(epoch), Top, epoch, 0, 0, 0, map[], None) }

  predicate Absorbing(place: Place) { place.Activating? || place.Withdrawing? || place.Cleaning? }

  predicate Enabled(s: Fiber, a: Action) {
    match a
    case Absorb => Absorbing(s.place)
    case Tick(_) => !s.place.Halted? && (s.place.Launching? ==> s.inner.inFlight.None?)
    case _ => true
  }

  function Max(a: nat, b: nat): nat { if a < b then b else a }

  function Planned(s: Fiber, asked: nat, version: nat): Place {
    match Plan(s.inner.committed, s.inner.desired)
    case None => Settling(asked, version, s.inner.moved, s.inner.committed, s.inner.desired)
    case Some(Load(aim, _)) => Launching(aim)
    case Some(Unload(cause)) => if cause == BodyFaulted then Faulting else Withdrawing(cause, false)
    case Some(Finish) => Finishing
  }

  function Commits(s: Fiber, c: Committed, place: Place): Fiber {
    s.(inner := s.inner.(committed := c), place := place)
  }

  /** One step of the supervisor; `ok` is how an activation or a withdrawal ended, where one did. */
  function Ticked(s: Fiber, ok: bool): Fiber
    requires Enabled(s, Tick(ok))
  {
    var i := s.inner;
    match s.place
    case Top => s.(place := Syncing(s.probe))
    case Syncing(asked) => s.(inner := EpochSet(i, s.signal), place := Observing(asked, s.version))
    case Observing(asked, version) => s.(place := Planned(s, asked, version))
    case Settling(asked, version, stamp, c, d) =>
      s.(inner := RestSettled(i, stamp), place := Acking(asked, version, stamp, c, d))
    case Acking(asked, version, stamp, c, d) =>
      s.(settled := Max(s.settled, asked), acked := Some(Ack(stamp, version, c, d)),
         place := if c.state == Disposed || c.disposalFailed then Halted else Waiting)
    case Waiting => s.(place := Top)
    case Launching(aim) => s.(inner := Launched(i, aim), place := Activating(aim))
    case Activating(aim) => s.(inner := i.(inFlight := None), place := Landing(aim, ok))
    case Landing(aim, landed) =>
      if landed then Commits(s, Activated(i.committed, aim), Publishing)
      else Commits(s, FailedUnder(i.committed, Some(aim)), Cleaning)
    case Publishing => s.(inner := EpochSet(i, s.signal), place := Top)
    case Finishing => s.(place := Withdrawing(if i.desired.disposing then ExplicitDispose else Cause.Suspend, true))
    case Withdrawing(_, finish) => s.(place := Withdrawn(finish, ok))
    case Withdrawn(finish, clean) =>
      if finish then Commits(s, DisposalLanded(i.committed, clean), Top) else s.(place := Judging(clean, i.desired))
    case Judging(clean, d) => Commits(s, Landed(i.committed, d, Unload(InitialLoad), clean), Top)
    case Faulting => Commits(s, FailedUnder(i.committed, i.committed.activeFor), Cleaning)
    case Cleaning => s.(place := Top)
    case Halted => s
  }

  function Do(s: Fiber, a: Action): Fiber
    requires Enabled(s, a)
  {
    match a
    case Restart(cause) => s.(inner := Restarted(s.inner, cause))
    case Dispose => s.(inner := Disposing(s.inner))
    case Suspend => s.(inner := Suspending(s.inner))
    case Signal(epoch) => s.(signal := epoch, version := s.version + 1)
    case Fault(incarnation) => s.(inner := Faulted(s.inner, incarnation))
    case Quiesce =>
      s.(probe := s.probe + 1,
         asks := s.asks[s.probe + 1 :=
           Ask(s.inner.moved, s.version, s.inner.desired.disposing, s.inner.desired.suspending)])
    case Absorb => s.(inner := EpochSet(s.inner, s.signal))
    case Tick(ok) => Ticked(s, ok)
  }

  // ----- what every interleaving keeps

  /** The supervisor is between transitions. */
  predicate Between(place: Place) {
    place.Top? || place.Syncing? || place.Observing? || place.Settling? || place.Acking? || place.Waiting?
    || place.Halted?
  }

  /** Nothing runs: not yet loaded, or failed, and no disposal has failed. */
  predicate Down(c: Committed) { c.state in {Pending, FiberState.Failed} && !c.disposalFailed }

  /** What has landed fits where the supervisor stands. */
  predicate Fits(s: Fiber) {
    var c := s.inner.committed;
    match s.place
    case Launching(_) => Down(c)
    case Activating(_) => Down(c)
    case Landing(_, _) => Down(c)
    case Publishing => c.state == Active
    case Finishing => Down(c) && (s.inner.desired.disposing || s.inner.desired.suspending)
    case Withdrawing(_, finish) =>
      if finish then Down(c) && (s.inner.desired.disposing || s.inner.desired.suspending)
      else c.state == Active
    case Withdrawn(finish, _) =>
      if finish then Down(c) && (s.inner.desired.disposing || s.inner.desired.suspending)
      else c.state == Active
    case Judging(_, d) =>
      c.state == Active && (d.disposing ==> s.inner.desired.disposing) && (d.suspending ==> s.inner.desired.suspending)
    case Faulting => c.state == Active
    case Cleaning => c.state == FiberState.Failed && !c.disposalFailed
    case Halted => c.state == Disposed || c.disposalFailed
    case _ => true
  }

  /** Rest, single flight, and the shape of what has landed. */
  predicate Steady(s: Fiber) {
    var i := s.inner;
    && (i.inFlight.Some? <==> s.place.Activating?)
    && !InFlight(i.committed.state)
    && (i.committed.disposalFailed ==>
         i.committed.state == FiberState.Failed && (i.desired.disposing || i.desired.suspending))
    && (i.resting ==> Plan(i.committed, i.desired) == None && Between(s.place))
    && Fits(s)
  }

  /** A plan of nothing stays in force until a target write moves the stamp. */
  predicate Read(s: Fiber) {
    match s.place
    case Settling(_, _, stamp, c, d) =>
      stamp <= s.inner.moved && c == s.inner.committed && Plan(c, d) == None
      && (stamp == s.inner.moved ==> d == s.inner.desired)
    case Acking(_, _, stamp, c, d) => stamp <= s.inner.moved && c == s.inner.committed && Plan(c, d) == None
    case _ => true
  }

  /** Everything written before probe `p` asked has been read. */
  predicate Covered(ask: Ask, stamp: nat, version: nat, d: Desired) {
    && ask.moved <= stamp && ask.version <= version
    && (ask.disposing ==> d.disposing) && (ask.suspending ==> d.suspending)
  }

  predicate Answers(s: Fiber, p: nat)
    requires p in s.asks
  {
    var ask := s.asks[p];
    && p <= s.probe && ask.moved <= s.inner.moved && ask.version <= s.version
    && (ask.disposing ==> s.inner.desired.disposing) && (ask.suspending ==> s.inner.desired.suspending)
    && (match s.place
        case Observing(asked, version) => p <= asked ==> ask.version <= version
        case Settling(asked, version, stamp, _, d) => p <= asked ==> Covered(ask, stamp, version, d)
        case Acking(asked, version, stamp, _, d) => p <= asked ==> Covered(ask, stamp, version, d)
        case _ => true)
    && (p <= s.settled ==> s.acked.Some? && Covered(ask, s.acked.value.stamp, s.acked.value.version, s.acked.value.d))
  }

  predicate AsksWithin(s: Fiber) {
    && s.settled <= s.probe
    && (s.place.Syncing? || s.place.Observing? || s.place.Settling? || s.place.Acking? ==> s.place.asked <= s.probe)
    && (s.place.Observing? || s.place.Settling? || s.place.Acking? ==> s.place.version <= s.version)
    && (s.acked.Some? ==>
          && s.acked.value.stamp <= s.inner.moved && s.acked.value.version <= s.version
          && (s.acked.value.d.disposing ==> s.inner.desired.disposing)
             && (s.acked.value.d.suspending ==> s.inner.desired.suspending)
          && Plan(s.acked.value.c, s.acked.value.d) == None
          && !InFlight(s.acked.value.c.state)
          && (s.acked.value.c.state == Disposed || s.acked.value.c.disposalFailed <==> s.place.Halted?)
          && (s.place.Halted? ==> s.acked.value.c == s.inner.committed)
          && (s.place.Observing? ==> s.acked.value.version <= s.place.version)
          && (s.place.Settling? || s.place.Acking? ==>
               Ordered(s.acked.value, s.place.stamp, s.place.version, s.place.d)))
    && (s.acked.None? ==> !s.place.Halted?)
    && (s.place.Settling? || s.place.Acking? ==>
          (s.place.d.disposing ==> s.inner.desired.disposing) && (s.place.d.suspending ==> s.inner.desired.suspending))
  }

  predicate Ordered(acked: Ack, stamp: nat, version: nat, d: Desired) {
    && acked.stamp <= stamp && acked.version <= version
    && (acked.d.disposing ==> d.disposing) && (acked.d.suspending ==> d.suspending)
  }

  ghost predicate Kept(s: Fiber) {
    && Steady(s) && Read(s) && AsksWithin(s)
    && forall p :: p in s.asks ==> Answers(s, p)
  }

  lemma SpawnedKept(epoch: Option<nat>)
    ensures Kept(Spawned(epoch))
  {}

  lemma SteadyWrite(s: Fiber, a: Action)
    requires Steady(s) && Read(s) && AsksWithin(s) && Enabled(s, a) && !a.Tick?
    ensures Steady(Do(s, a)) && Read(Do(s, a)) && AsksWithin(Do(s, a))
  {
    AsksWrite(s, a);
  }

  lemma AsksWrite(s: Fiber, a: Action)
    requires AsksWithin(s) && Enabled(s, a) && !a.Tick?
    ensures AsksWithin(Do(s, a))
  {
    hide Plan;
  }

  lemma SteadyTick(s: Fiber, ok: bool)
    requires Steady(s) && Read(s) && AsksWithin(s) && Enabled(s, Tick(ok))
    ensures Steady(Do(s, Tick(ok))) && Read(Do(s, Tick(ok)))
  {
    if s.place.Observing? {
      SteadyObserving(s, ok);
    } else if Between(s.place) {
      SteadyBetween(s, ok);
    } else {
      SteadyMoving(s, ok);
    }
  }

  lemma SteadyObserving(s: Fiber, ok: bool)
    requires Steady(s) && s.place.Observing? && Enabled(s, Tick(ok))
    ensures Steady(Do(s, Tick(ok))) && Read(Do(s, Tick(ok)))
  {}

  lemma SteadyBetween(s: Fiber, ok: bool)
    requires Steady(s) && Read(s) && AsksWithin(s) && Between(s.place) && !s.place.Observing? && Enabled(s, Tick(ok))
    ensures Steady(Do(s, Tick(ok))) && Read(Do(s, Tick(ok)))
  {}

  lemma SteadyMoving(s: Fiber, ok: bool)
    requires Steady(s) && !Between(s.place) && Enabled(s, Tick(ok))
    ensures Steady(Do(s, Tick(ok))) && Read(Do(s, Tick(ok)))
  {}

  lemma AsksTick(s: Fiber, ok: bool)
    requires Steady(s) && Read(s) && AsksWithin(s) && Enabled(s, Tick(ok))
    ensures AsksWithin(Do(s, Tick(ok)))
  {}

  lemma AnswersWrite(s: Fiber, a: Action, p: nat)
    requires AsksWithin(s) && (p in s.asks ==> Answers(s, p)) && Enabled(s, a) && !a.Tick? && p in Do(s, a).asks
    ensures Answers(Do(s, a), p)
  {
    hide Plan;
  }

  lemma AnswersTick(s: Fiber, ok: bool, p: nat)
    requires AsksWithin(s) && p in s.asks && Answers(s, p) && Enabled(s, Tick(ok))
    ensures Answers(Do(s, Tick(ok)), p)
  {
    hide Plan;
  }

  lemma StepKept(s: Fiber, a: Action)
    requires Kept(s) && Enabled(s, a)
    ensures Kept(Do(s, a))
  {
    hide Steady, Read, AsksWithin, Answers;
    var n := Do(s, a);
    if a.Tick? { SteadyTick(s, a.ok); AsksTick(s, a.ok); TickAsks(s, a.ok); } else { SteadyWrite(s, a); }
    forall p | p in n.asks ensures Answers(n, p) {
      if a.Tick? { AnswersTick(s, a.ok, p); } else { AnswersWrite(s, a, p); }
    }
  }

  lemma TickAsks(s: Fiber, ok: bool)
    requires Enabled(s, Tick(ok))
    ensures Do(s, Tick(ok)).asks == s.asks
  {}

  // ----- runs

  ghost predicate Runs(s: Fiber, actions: seq<Action>)
    decreases |actions|, 0
  {
    actions == [] || (Runs(s, actions[..|actions| - 1])
                      && Enabled(After(s, actions[..|actions| - 1]), actions[|actions| - 1]))
  }

  ghost function After(s: Fiber, actions: seq<Action>): Fiber
    requires Runs(s, actions)
    decreases |actions|, 1
  {
    if actions == [] then s else Do(After(s, actions[..|actions| - 1]), actions[|actions| - 1])
  }

  lemma {:induction false} RunsKeep(s: Fiber, actions: seq<Action>)
    requires Kept(s) && Runs(s, actions)
    ensures Kept(After(s, actions))
  {
    if actions != [] {
      RunsKeep(s, actions[..|actions| - 1]);
      StepKept(After(s, actions[..|actions| - 1]), actions[|actions| - 1]);
    }
  }

  /**
   * Rest is never a lie: whatever writes race the supervisor, a fiber that answers it rests has nothing in
   * flight and nothing planned, so nothing is owed of what landed but a failure no one will retry.
   */
  lemma RestIsNeverALie(epoch: Option<nat>, actions: seq<Action>)
    requires Runs(Spawned(epoch), actions) && After(Spawned(epoch), actions).inner.resting
    ensures var i := After(Spawned(epoch), actions).inner;
            i.inFlight == None && Plan(i.committed, i.desired) == None && AtRest(i.committed, i.desired)
  {
    SpawnedKept(epoch);
    RunsKeep(Spawned(epoch), actions);
  }

  /** The single-flight assertion of a launch never fails, and what has landed is never a state in flight. */
  lemma LaunchNeverCollides(epoch: Option<nat>, actions: seq<Action>, ok: bool)
    requires Runs(Spawned(epoch), actions)
    ensures var s := After(Spawned(epoch), actions);
            && (!s.place.Halted? ==> Enabled(s, Tick(ok)))
            && !InFlight(s.inner.committed.state)
            && (s.inner.inFlight.Some? <==> s.place.Activating?)
  {
    SpawnedKept(epoch);
    RunsKeep(Spawned(epoch), actions);
  }

  /** Requests are never withdrawn, stamps never go back, and a disposed fiber never comes back. */
  ghost predicate NeverBack(s: Fiber, n: Fiber) {
    && (s.inner.desired.disposing ==> n.inner.desired.disposing)
    && (s.inner.desired.suspending ==> n.inner.desired.suspending)
    && s.inner.moved <= n.inner.moved && s.inner.launches <= n.inner.launches && s.settled <= n.settled
    && (s.inner.committed.state == Disposed ==> n.inner.committed.state == Disposed)
    && (s.place.Halted? ==> n.place.Halted? && n.inner.committed == s.inner.committed)
  }

  /** Once disposed, the supervisor is between transitions and stays there. */
  lemma StepNeverBack(s: Fiber, a: Action)
    requires Kept(s) && Enabled(s, a)
    ensures NeverBack(s, Do(s, a))
  {}

  lemma {:induction false} RunsNeverGoBack(s: Fiber, actions: seq<Action>)
    requires Kept(s) && Runs(s, actions)
    ensures NeverBack(s, After(s, actions))
  {
    if actions != [] {
      RunsNeverGoBack(s, actions[..|actions| - 1]);
      RunsKeep(s, actions[..|actions| - 1]);
      StepNeverBack(After(s, actions[..|actions| - 1]), actions[|actions| - 1]);
    }
  }

  /**
   * An acknowledged probe means what it says: every write of the cell and every move of the signal that
   * came before the asking was read since, and with all of it read nothing was owed.
   */
  lemma AcknowledgedMeansServed(epoch: Option<nat>, actions: seq<Action>, p: nat)
    requires Runs(Spawned(epoch), actions)
    requires var s := After(Spawned(epoch), actions); p in s.asks && p <= s.settled
    ensures var s := After(Spawned(epoch), actions);
            && s.acked.Some? && Covered(s.asks[p], s.acked.value.stamp, s.acked.value.version, s.acked.value.d)
            && Plan(s.acked.value.c, s.acked.value.d) == None
  {
    SpawnedKept(epoch);
    RunsKeep(Spawned(epoch), actions);
    assert Answers(After(Spawned(epoch), actions), p);
  }

  /**
   * A disposal or suspension that resolves has ended the fiber for good: disposed, or failed with its own
   * withdrawal unclean, whatever is asked of it afterwards.
   */
  lemma DisposalResolves(epoch: Option<nat>, actions: seq<Action>, p: nat, more: seq<Action>)
    requires Runs(Spawned(epoch), actions)
    requires var s := After(Spawned(epoch), actions);
             p in s.asks && p <= s.settled && (s.asks[p].disposing || s.asks[p].suspending) && Runs(s, more)
    ensures var n := After(After(Spawned(epoch), actions), more);
            && n.inner.committed == After(Spawned(epoch), actions).inner.committed
            && (n.inner.committed.state == Disposed
                || (n.inner.committed.state == FiberState.Failed && n.inner.committed.disposalFailed))
            && Plan(n.inner.committed, n.inner.desired) == None
  {
    var s := After(Spawned(epoch), actions);
    SpawnedKept(epoch);
    RunsKeep(Spawned(epoch), actions);
    assert Answers(s, p);
    RunsKeep(s, more);
    RunsNeverGoBack(s, more);
  }

  // ----- a promise the running supervisor does not keep

  lemma Then(s: Fiber, actions: seq<Action>, a: Action) returns (more: seq<Action>)
    requires Runs(s, actions) && Enabled(After(s, actions), a)
    ensures more == actions + [a] && Runs(s, more) && After(s, more) == Do(After(s, actions), a)
  {
    more := actions + [a];
    assert more[..|actions|] == actions;
  }

  lemma {:induction false} RunsJoin(s: Fiber, a: seq<Action>, b: seq<Action>)
    requires Runs(s, a) && Runs(After(s, a), b)
    ensures Runs(s, a + b) && After(s, a + b) == After(After(s, a), b)
  {
    if b == [] {
      assert a + b == a;
    } else {
      assert (a + b)[..|a + b| - 1] == a + b[..|b| - 1];
      RunsJoin(s, a, b[..|b| - 1]);
    }
  }

  const AIM := Aim(Some(0), 0)

  /** A fiber that was only ever asked to serve `AIM`. */
  function Asked(c: Committed, faulted: bool, launches: nat, inFlight: Option<Aim>, place: Place): Fiber {
    Fiber(Inner(Desired(AIM, InitialLoad, false, false, faulted), c, inFlight, false,
                if faulted then 1 else 0, launches),
          place, Some(0), 0, 0, 0, map[], None)
  }

  lemma Two(s: Fiber, n: Fiber) returns (actions: seq<Action>)
    requires Enabled(s, Tick(true)) && Enabled(Ticked(s, true), Tick(true)) && n == Ticked(Ticked(s, true), true)
    ensures actions == [Tick(true), Tick(true)] && Runs(s, actions) && After(s, actions) == n
  {
    actions := Then(s, [], Tick(true));
    actions := Then(s, actions, Tick(true));
  }

  /** Runs end to end. */
  lemma On(s: Fiber, a: seq<Action>, m: Fiber, b: seq<Action>, n: Fiber) returns (all: seq<Action>)
    requires Runs(s, a) && After(s, a) == m && Runs(m, b) && After(m, b) == n
    ensures all == a + b && Runs(s, all) && After(s, all) == n
  {
    RunsJoin(s, a, b);
    all := a + b;
  }

  /** A first activation whose body has just reported its own death. */
  function Dying(): Fiber { Asked(FRESH, true, 1, Some(AIM), Activating(AIM)) }

  lemma Dies() returns (told: seq<Action>)
    ensures Runs(Spawned(Some(0)), told) && After(Spawned(Some(0)), told) == Dying()
  {
    hide Runs, After;
    var observing := Asked(FRESH, false, 0, None, Observing(0, 0));
    var active := Asked(FRESH, false, 1, Some(AIM), Activating(AIM));
    var a := Two(Spawned(Some(0)), observing);
    var b := Two(observing, active);
    told := On(Spawned(Some(0)), a, observing, b, active);
    told := Then(Spawned(Some(0)), told, Fault(1));
  }

  lemma ComesToRest() returns (rest: seq<Action>, end: Fiber)
    ensures Runs(Dying(), rest) && After(Dying(), rest) == end && forall a :: a in rest ==> a == Tick(true)
    ensures end.inner.resting && end.inner.committed.state == FiberState.Failed && end.inner.desired.aim == AIM
  {
    hide Runs, After;
    var live := Activated(FRESH, AIM);
    var dead := FailedUnder(live, Some(AIM));
    var published := Asked(live, true, 1, None, Publishing);
    var syncing := Asked(live, true, 1, None, Syncing(0));
    var faulting := Asked(live, true, 1, None, Faulting);
    var top := Asked(dead, true, 1, None, Top);
    var observing := Asked(dead, true, 1, None, Observing(0, 0));
    var a := Two(Dying(), published);
    var b := Two(published, syncing);
    rest := On(Dying(), a, published, b, syncing);
    b := Two(syncing, faulting);
    rest := On(Dying(), rest, syncing, b, faulting);
    b := Two(faulting, top);
    rest := On(Dying(), rest, faulting, b, top);
    b := Two(top, observing);
    rest := On(Dying(), rest, top, b, observing);
    end := Ticked(Ticked(observing, true), true);
    b := Two(observing, end);
    rest := On(Dying(), rest, observing, b, end);
  }

  /**
   * An activation in flight leaves its fiber committed as it was before, so a death it reports before
   * landing does not show: callers are promised a reload, and the fiber comes to rest failed instead.
   */
  lemma DeathInFlightStillPromises() returns (told: seq<Action>, rest: seq<Action>)
    ensures Runs(Spawned(Some(0)), told) && Runs(Spawned(Some(0)), told + rest)
    ensures forall a :: a in rest ==> a == Tick(true)
    ensures var s := After(Spawned(Some(0)), told); s.inner.desired.faulted && OwedNow(s.inner) == Some(Reload)
    ensures var n := After(Spawned(Some(0)), told + rest);
            n.inner.resting && n.inner.committed.state == FiberState.Failed && n.inner.desired.aim == AIM
  {
    hide Runs, After;
    told := Dies();
    var end: Fiber;
    rest, end := ComesToRest();
    var all := On(Spawned(Some(0)), told, Dying(), rest, end);
  }
}
