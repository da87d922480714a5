// Operator compensations beside reverts: what a crash leaves of one, and exactly
// when an inverse can still run after a durable completion or resolution.

module Compensation {
  import opened Profiles
  import opened Ledger
  import opened Protocol

  // ----- what the log says of a closed effect

  /** The last completion or resolution of an effect. */
  function LastClosing(log: seq<Event>, e: Effect): Option<Event> {
    if log == [] then None else
      var last := log[|log| - 1];
      if About(last, e) && !last.Intent? then Some(last) else LastClosing(log[..|log| - 1], e)
  }

  /** What a closing record leaves an effect's state at: a resolution its own, a completion as if it were a revert's. */
  function StateBy(event: Event): Resolution {
    match event
    case Completed(_, _, clean) => if clean then Reverted else PendingRevert
    case Resolved(_, resolution) => resolution
    case _ => PendingRevert
  }

  /** The last closing record alone decides what is read. */
  lemma {:induction false} ReadsLastClosing(log: seq<Event>, e: Effect)
    ensures LastClosing(log, e).Some? <==> Closed(log, e)
    ensures LastClosing(log, e).Some? ==>
              && LastClosing(log, e).value in log && About(LastClosing(log, e).value, e)
              && Read(log, e).state == Some(StateBy(LastClosing(log, e).value)) && Read(log, e).completed
  {
    ReadSays(log, e);
    if log != [] {
      ReadSays(log[..|log| - 1], e);
      ReadsLastClosing(log[..|log| - 1], e);
      assert log == log[..|log| - 1] + [log[|log| - 1]];
    }
  }

  lemma {:induction false} LastClosingMore(log: seq<Event>, more: seq<Event>, e: Effect)
    ensures LastClosing(log + more, e) == if LastClosing(more, e).Some? then LastClosing(more, e)
                                          else LastClosing(log, e)
  {
    if more == [] {
      assert log + more == log;
    } else {
      assert (log + more)[..|log + more| - 1] == log + more[..|more| - 1];
      LastClosingMore(log, more[..|more| - 1], e);
    }
  }

  /** A completion with this outcome is durable. */
  predicate Completes(log: seq<Event>, e: Effect, clean: bool) {
    exists i :: 0 <= i < |log| && log[i].Completed? && log[i].effect == e && log[i].clean == clean
  }

  lemma CompletesMore(log: seq<Event>, more: seq<Event>, e: Effect, clean: bool)
    requires log <= more && Completes(log, e, clean)
    ensures Completes(more, e, clean)
  {
    var i :| 0 <= i < |log| && log[i].Completed? && log[i].effect == e && log[i].clean == clean;
    assert more[i] == log[i];
  }

  // ----- compensations that come early

  predicate Waits(phase: Phase) { phase.Intending? || phase.Running? }

  /** The one run of an effect's inverse may still come: its branch may resume, or its holder has not invoked yet. */
  predicate StillToRun(s: System, e: Effect) {
    || (e in s.memory && s.memory[e].resumable)
    || (e in s.holder && s.holder[e] in s.tasks && Waits(s.tasks[s.holder[e]].phase))
  }

  /** The action binds a confirmed compensator to the effect's pending branch. */
  predicate Admits(s: System, a: Action, e: Effect) {
    && Enabled(s, a) && a.Claim? && s.tasks[a.task].compensates && s.tasks[a.task].effect == e
    && e in s.memory && s.memory[e].state == PendingRevert
  }

  /** In the process that runs now, a compensation of the effect was admitted while its inverse might still run. */
  ghost predicate Overtaken(actions: seq<Action>, e: Effect)
    requires Runs(EMPTY, actions)
  {
    actions != [] &&
    var before, a := actions[..|actions| - 1], actions[|actions| - 1];
    !a.Crash? && (Overtaken(before, e) || (Admits(After(EMPTY, before), a, e) && StillToRun(After(EMPTY, before), e)))
  }

  // ----- what every run keeps of every effect

  predicate Past(phase: Phase) {
    phase.Running? || phase.Completing? || phase.Erring? || phase.Resolving? || phase.Announcing?
  }

  ghost predicate TaskGuarded(s: System, t: nat, early: bool)
    requires t in s.tasks
  {
    var task := s.tasks[t];
    var e := task.effect;
    && (Holds(task.phase) && !task.compensates ==> e in s.holder && s.holder[e] == t)
    && (Holds(task.phase) && task.compensates ==> e in s.memory && (StillToRun(s, e) ==> early))
    && (task.phase.Seeding? ==> s.since <= |task.phase.records| && task.phase.records <= s.log)
    && (task.phase.Claiming? && e !in s.memory ==> Read(s.log, e).bound.None?)
    && (Past(task.phase) ==> Read(s.log, e).bound.Some?)
    && ((task.phase.Resolving? || task.phase.Announcing?) && task.phase.state.Compensated? ==>
          Completes(s.log, e, task.phase.state.clean))
  }

  ghost predicate EffectGuarded(s: System, e: Effect, early: bool) {
    && (Read(s.log, e).completed ==> Read(s.log, e).bound.Some?)
    && (forall clean :: Resolved(e, Compensated(clean)) in s.log ==> Completes(s.log, e, clean))
    && (if e in s.holder then
          && s.grants[e] == 1 && e in s.memory && !s.memory[e].resumable
          && s.holder[e] in s.tasks && s.tasks[s.holder[e]].effect == e && !s.tasks[s.holder[e]].compensates
          && s.runs[e] <= (if Waits(s.tasks[s.holder[e]].phase) then 0 else 1)
        else s.grants[e] == 0 && s.runs[e] == 0)
    && (e !in s.memory ==> Quiet(s, e))
    && (e in s.memory && s.memory[e].resumable ==> Read(s.log, e).bound.Some?)
    && (StillToRun(s, e) && Read(s.log, e).completed ==> early)
  }

  ghost predicate Guarded(s: System, e: Effect, early: bool) {
    && s.since <= |s.log|
    && (forall t :: t in s.tasks && s.tasks[t].effect == e ==> TaskGuarded(s, t, early))
    && EffectGuarded(s, e, early)
  }

  lemma EmptyGuarded(e: Effect)
    ensures Guarded(EMPTY, e, false)
  {}

  lemma ApartGuarded(s: System, n: System, e: Effect, early: bool)
    requires Guarded(s, e, early) && Apart(s, n, e)
    ensures Guarded(n, e, early)
  {
    ApartReads(s, n, e);
    hide Read, Completes;
    forall clean | Completes(s.log, e, clean) ensures Completes(n.log, e, clean) {
      CompletesMore(s.log, n.log, e, clean);
    }
    forall clean | Resolved(e, Compensated(clean)) in n.log ensures Completes(n.log, e, clean) {
      var i :| 0 <= i < |n.log| && n.log[i] == Resolved(e, Compensated(clean));
      assert About(n.log[i], e) && s.log[i] == n.log[i];
    }
    forall t | t in n.tasks && n.tasks[t].effect == e ensures TaskGuarded(n, t, early) {
      assert TaskGuarded(s, t, early);
    }
  }

  /** A step of a task outside its grant and its end moves only that task. */
  lemma EarlyGuarded(s: System, t: nat, phase: Phase, n: System, early: bool)
    requires t in s.tasks && Guarded(s, s.tasks[t].effect, early) && n == Moved(s, t, phase)
    requires !Holds(s.tasks[t].phase) && !s.tasks[t].phase.Ended? && !Holds(phase)
    requires phase.Seeding? ==> s.since <= |phase.records| && phase.records <= s.log
    requires phase.Claiming? && s.tasks[t].effect !in s.memory ==> Read(s.log, s.tasks[t].effect).bound.None?
    ensures Guarded(n, s.tasks[t].effect, early)
  {
    hide Read, Completes;
    var e := s.tasks[t].effect;
    assert TaskGuarded(s, t, early);
    forall x | x in n.tasks && n.tasks[x].effect == e ensures TaskGuarded(n, x, early) {
      if x != t { assert TaskGuarded(s, x, early); }
    }
  }

  lemma StartGuarded(s: System, a: Action, n: System, early: bool)
    requires a.Start? && Enabled(s, a) && Guarded(s, a.effect, early) && n == Do(s, a)
    ensures Guarded(n, a.effect, early)
  {
    hide Read, Completes;
    forall x | x in n.tasks && n.tasks[x].effect == a.effect ensures TaskGuarded(n, x, early) {
      if x != a.task { assert TaskGuarded(s, x, early); }
    }
  }

  lemma SeedGuarded(s: System, t: nat, n: System, early: bool)
    requires Enabled(s, Seed(t)) && Guarded(s, s.tasks[t].effect, early) && n == Do(s, Seed(t))
    ensures Guarded(n, s.tasks[t].effect, early)
  {
    var task := s.tasks[t];
    var e := task.effect;
    assert TaskGuarded(s, t, early);
    var rebuilt := Rebuilt(Read(task.phase.records, e));
    if e !in s.memory {
      SnapshotReads(s, task.phase.records, e);
      ReadSays(s.log, e);
      if rebuilt.Some? {
        var m := s.(memory := AfterSeed(s.memory, e, rebuilt.value));
        SeededGuarded(s, e, rebuilt.value, m, early);
        EarlyGuarded(m, t, Claiming, n, early);
      } else {
        EarlyGuarded(s, t, Claiming, n, early);
      }
    } else {
      EarlyGuarded(s, t, Claiming, n, early);
    }
  }

  lemma SeededGuarded(s: System, e: Effect, branch: Branch, m: System, early: bool)
    requires Guarded(s, e, early) && e !in s.memory && Rebuilt(Read(s.log, e)) == Some(branch)
    requires m == s.(memory := s.memory[e := branch])
    ensures Guarded(m, e, early)
  {
    hide Read, Completes;
    forall x | x in m.tasks && m.tasks[x].effect == e ensures TaskGuarded(m, x, early) {
      assert TaskGuarded(s, x, early);
    }
  }

  /** A grant comes only while nothing has closed the effect, unless a compensation came early. */
  lemma GrantGuarded(s: System, t: nat, n: System, early: bool)
    requires Enabled(s, Claim(t)) && Guarded(s, s.tasks[t].effect, early) && n == Do(s, Claim(t))
             && !s.tasks[t].compensates
    requires Claimed(s.memory, s.tasks[t].effect, s.tasks[t].key) in {Fresh, Resumed}
    ensures Guarded(n, s.tasks[t].effect, early)
  {
    hide Read, Completes;
    var e := s.tasks[t].effect;
    assert TaskGuarded(s, t, early);
    forall x | x in n.tasks && n.tasks[x].effect == e ensures TaskGuarded(n, x, early) {
      assert TaskGuarded(s, x, early);
    }
  }

  /** A compensation is early exactly when the inverse may still run. */
  lemma AdmitGuarded(s: System, t: nat, n: System, early: bool)
    requires t in s.tasks && Admits(s, Claim(t), s.tasks[t].effect) && Guarded(s, s.tasks[t].effect, early)
    requires n == Do(s, Claim(t))
    ensures Guarded(n, s.tasks[t].effect, early || StillToRun(s, s.tasks[t].effect))
  {
    hide Read, Completes;
    var e := s.tasks[t].effect;
    var now := early || StillToRun(s, e);
    assert TaskGuarded(s, t, early);
    assert StillToRun(n, e) <==> StillToRun(s, e);
    forall x | x in n.tasks && n.tasks[x].effect == e ensures TaskGuarded(n, x, now) {
      assert TaskGuarded(s, x, early);
    }
  }

  lemma ClaimGuarded(s: System, t: nat, n: System, early: bool)
    requires Enabled(s, Claim(t)) && Guarded(s, s.tasks[t].effect, early) && n == Do(s, Claim(t))
    ensures Guarded(n, s.tasks[t].effect, early
                    || (Admits(s, Claim(t), s.tasks[t].effect) && StillToRun(s, s.tasks[t].effect)))
  {
    hide Read, Quiet, Completes, Guarded, StillToRun;
    if Admits(s, Claim(t), s.tasks[t].effect) {
      AdmitGuarded(s, t, n, early);
    } else if !s.tasks[t].compensates && Claimed(s.memory, s.tasks[t].effect, s.tasks[t].key) in {Fresh, Resumed} {
      GrantGuarded(s, t, n, early);
    } else {
      EarlyGuarded(s, t, n.tasks[t].phase, n, early);
    }
  }

  /** What one more record about an effect adds. */
  lemma RecordedMore(log: seq<Event>, event: Event, e: Effect)
    requires forall clean :: Resolved(e, Compensated(clean)) in log ==> Completes(log, e, clean)
    requires event.Resolved? && event.effect == e && event.resolution.Compensated? ==>
               Completes(log, e, event.resolution.clean)
    ensures forall clean :: Resolved(e, Compensated(clean)) in log + [event] ==> Completes(log + [event], e, clean)
    ensures forall clean :: Completes(log, e, clean) ==> Completes(log + [event], e, clean)
    ensures event.Completed? && event.effect == e ==> Completes(log + [event], e, event.clean)
    ensures Read(log + [event], e) == Next(Read(log, e), event, e)
  {
    ReadMore(log, event, e);
    forall clean | Completes(log, e, clean) ensures Completes(log + [event], e, clean) {
      CompletesMore(log, log + [event], e, clean);
    }
    if event.Completed? && event.effect == e { assert (log + [event])[|log|] == event; }
  }

  lemma AppendEffectGuarded(s: System, t: nat, landing: Landing, n: System, early: bool)
    requires Enabled(s, Append(t, landing)) && Guarded(s, s.tasks[t].effect, early) && n == Do(s, Append(t, landing))
    ensures EffectGuarded(n, s.tasks[t].effect, early)
            && (StillToRun(n, s.tasks[t].effect) ==> StillToRun(s, s.tasks[t].effect))
    ensures s.since <= |n.log|
  {
    hide Read, Completes, Quiet;
    assert TaskGuarded(s, t, early);
    RecordedMore(s.log, EventOf(s.tasks[t]), s.tasks[t].effect);
  }

  lemma AppendGuarded(s: System, t: nat, landing: Landing, n: System, early: bool)
    requires Enabled(s, Append(t, landing)) && Guarded(s, s.tasks[t].effect, early) && n == Do(s, Append(t, landing))
    ensures Guarded(n, s.tasks[t].effect, early)
  {
    hide Read, Completes, Quiet;
    var e := s.tasks[t].effect;
    AppendEffectGuarded(s, t, landing, n, early);
    assert TaskGuarded(s, t, early);
    RecordedMore(s.log, EventOf(s.tasks[t]), e);
    assert StillToRun(n, e) ==> StillToRun(s, e);
    forall x | x in n.tasks && n.tasks[x].effect == e ensures TaskGuarded(n, x, early) {
      assert TaskGuarded(s, x, early);
    }
  }

  lemma InvokeGuarded(s: System, t: nat, ending: Ending, n: System, early: bool)
    requires Enabled(s, Invoke(t, ending)) && Guarded(s, s.tasks[t].effect, early) && n == Do(s, Invoke(t, ending))
    ensures Guarded(n, s.tasks[t].effect, early)
  {
    hide Read, Completes;
    var e := s.tasks[t].effect;
    assert TaskGuarded(s, t, early);
    forall x | x in n.tasks && n.tasks[x].effect == e ensures TaskGuarded(n, x, early) {
      assert TaskGuarded(s, x, early);
    }
  }

  lemma SettleGuarded(s: System, t: nat, n: System, early: bool)
    requires Enabled(s, Settle(t)) && Guarded(s, s.tasks[t].effect, early) && n == Do(s, Settle(t))
    ensures Guarded(n, s.tasks[t].effect, early)
  {
    hide Read, Completes;
    var e := s.tasks[t].effect;
    assert TaskGuarded(s, t, early);
    forall x | x in n.tasks && n.tasks[x].effect == e ensures TaskGuarded(n, x, early) {
      assert TaskGuarded(s, x, early);
    }
  }

  lemma CrashGuarded(s: System, n: System, e: Effect, early: bool)
    requires Guarded(s, e, early) && n == Do(s, Crash)
    ensures Guarded(n, e, false)
  {}

  /** Whether the flag of an early compensation is up after an action. */
  predicate EarlyAfter(s: System, a: Action, e: Effect, early: bool) {
    !a.Crash? && (early || (Admits(s, a, e) && StillToRun(s, e)))
  }

  lemma StepGuarded(s: System, a: Action, n: System, e: Effect, early: bool)
    requires Guarded(s, e, early) && Enabled(s, a) && n == Do(s, a)
    ensures Guarded(n, e, EarlyAfter(s, a, e, early))
  {
    if !Concerns(s, a, e) {
      OthersApart(s, a, n, e);
      ApartGuarded(s, n, e, early);
    } else {
      match a
      case Start(_, _, _, _) => StartGuarded(s, a, n, early);
      case Look(t) => EarlyGuarded(s, t, n.tasks[t].phase, n, early);
      case Fetch(t, _) => EarlyGuarded(s, t, n.tasks[t].phase, n, early);
      case Seed(t) => SeedGuarded(s, t, n, early);
      case Claim(t) => ClaimGuarded(s, t, n, early);
      case Append(t, landing) => AppendGuarded(s, t, landing, n, early);
      case Invoke(t, ending) => InvokeGuarded(s, t, ending, n, early);
      case Settle(t) => SettleGuarded(s, t, n, early);
      case Crash => CrashGuarded(s, n, e, early);
    }
  }

  lemma {:induction false} RunsGuard(actions: seq<Action>, e: Effect)
    requires Runs(EMPTY, actions)
    ensures Guarded(After(EMPTY, actions), e, Overtaken(actions, e))
  {
    hide Guarded, Do;
    if actions == [] {
      EmptyGuarded(e);
    } else {
      var before := actions[..|actions| - 1];
      RunsGuard(before, e);
      StepGuarded(After(EMPTY, before), actions[|actions| - 1], After(EMPTY, actions), e, Overtaken(before, e));
    }
  }

  // ----- what holds with compensations and without

  /**
   * In every run, compensations and all: an inverse runs only for the task granted its effect, only once in
   * its process, after a durable intent; and after a durable completion or resolution only if a compensation
   * was admitted in that process while the effect's inverse might still run.
   */
  lemma InverseFollowsClosingOnly(before: seq<Action>, a: Action, e: Effect)
    requires Runs(EMPTY, before) && Invokes(After(EMPTY, before), a, e)
    ensures var s := After(EMPTY, before);
            && e in s.holder && s.holder[e] == a.task && s.runs[e] == 0 && Intended(s.log, e)
            && (Closed(s.log, e) ==> Overtaken(before, e))
  {
    hide Runs, After, Overtaken;
    RunsGuard(before, e);
    var s := After(EMPTY, before);
    assert TaskGuarded(s, a.task, Overtaken(before, e));
    ReadSays(s.log, e);
  }

  /** One process grants an effect at most once and runs its inverse at most once, compensated or not. */
  lemma GrantedOnce(actions: seq<Action>, e: Effect)
    requires Runs(EMPTY, actions)
    ensures var s := After(EMPTY, actions); s.runs[e] <= s.grants[e] <= 1
  {
    RunsGuard(actions, e);
  }

  // ----- what a crash leaves of a compensation

  lemma {:induction false} LogGrows(s: System, actions: seq<Action>)
    requires Runs(s, actions)
    ensures s.log <= After(s, actions).log
  {
    if actions != [] {
      LogGrows(s, actions[..|actions| - 1]);
      DoGrows(After(s, actions[..|actions| - 1]), actions[|actions| - 1]);
    }
  }

  lemma DoGrows(s: System, a: Action)
    requires Enabled(s, a)
    ensures s.log <= Do(s, a).log
  {}

  /**
   * At every point of every run, a crash included, what the log rebuilds of a closed effect is decided by the
   * last record that closed it: it reads as compensated exactly when that is a compensation's resolution, and
   * as reverted or pending, by its outcome, when it is a completion, whether a revert's or a compensation's.
   * No resolution as compensated is durable without a completion of that outcome.
   */
  lemma CrashForgetsCompensation(actions: seq<Action>, e: Effect)
    requires Runs(EMPTY, actions) && Closed(After(EMPTY, actions).log, e)
    ensures var log := After(EMPTY, actions).log; var last := LastClosing(log, e); var branch := Rebuilt(Read(log, e));
            && last.Some? && branch.Some? && !branch.value.resumable
            && (branch.value.state.Compensated? <==> last.value.Resolved? && last.value.resolution.Compensated?)
            && (last.value.Completed? ==> branch.value.state == if last.value.clean then Reverted else PendingRevert)
            && forall clean :: Resolved(e, Compensated(clean)) in log ==> Completes(log, e, clean)
  {
    hide Runs, After, Overtaken;
    RunsGuard(actions, e);
    var log := After(EMPTY, actions).log;
    ReadsLastClosing(log, e);
    ReadSays(log, e);
  }

  /** The task's next append, if it lands, is the durable completion of a compensation. */
  predicate AboutToComplete(s: System, c: nat, e: Effect, clean: bool) {
    c in s.tasks && s.tasks[c].compensates && s.tasks[c].effect == e && s.tasks[c].phase == Completing(clean)
  }

  /**
   * From a compensation's completion on, and until another task closes the effect, every later point reads
   * it as compensated exactly when its resolution is durable, and until then as a completed revert.
   */
  lemma CompensationReadsAs(before: seq<Action>, c: nat, landing: Landing, more: seq<Action>, e: Effect, clean: bool)
    requires Runs(EMPTY, before) && AboutToComplete(After(EMPTY, before), c, e, clean) && landing != Dropped
    requires Runs(EMPTY, before + [Append(c, landing)] + more)
    requires var at := |After(EMPTY, before).log| + 1;
             var log := After(EMPTY, before + [Append(c, landing)] + more).log;
             && at <= |log|
             && forall i :: at <= i < |log| && About(log[i], e) && !log[i].Intent? ==>
                  log[i] == Resolved(e, Compensated(clean))
    ensures var at := |After(EMPTY, before).log| + 1; var log := After(EMPTY, before + [Append(c, landing)] + more).log;
            && Rebuilt(Read(log, e)).Some?
            && Rebuilt(Read(log, e)).value.state ==
                 if Resolved(e, Compensated(clean)) in log[at..] then Compensated(clean)
                 else if clean then Reverted else PendingRevert
  {
    hide Overtaken, LastClosing, Runs, After, Read;
    var s := After(EMPTY, before);
    var all := before + [Append(c, landing)] + more;
    var log := After(EMPTY, all).log;
    var landed := Then(EMPTY, before, Append(c, landing));
    var done := s.log + [Completed(s.tasks[c].key, e, clean)];
    assert After(EMPTY, landed).log == done;
    RunsSplit(landed, more);
    LogGrows(After(EMPTY, landed), more);
    assert log == done + log[|done|..];
    LastClosingMore(s.log, [Completed(s.tasks[c].key, e, clean)], e);
    LastClosingMore(done, log[|done|..], e);
    ClosesAs(log[|done|..], e, clean);
    SinglyLast(Completed(s.tasks[c].key, e, clean), e);
    ReadsLastClosing(log, e);
    CrashForgetsCompensation(all, e);
  }

  lemma SinglyLast(event: Event, e: Effect)
    requires About(event, e) && !event.Intent?
    ensures LastClosing([event], e) == Some(event)
  {}

  /** Among records that close an effect only one way, the last closing one is that, if there is any. */
  lemma {:induction false} ClosesAs(log: seq<Event>, e: Effect, clean: bool)
    requires forall i :: 0 <= i < |log| && About(log[i], e) && !log[i].Intent? ==>
               log[i] == Resolved(e, Compensated(clean))
    ensures LastClosing(log, e) ==
              if Resolved(e, Compensated(clean)) in log then Some(Resolved(e, Compensated(clean))) else None
  {
    if log != [] {
      ClosesAs(log[..|log| - 1], e, clean);
      assert log == log[..|log| - 1] + [log[|log| - 1]];
    }
  }

  lemma {:induction false} RunsSplit(a: seq<Action>, b: seq<Action>)
    requires Runs(EMPTY, a + b)
    ensures Runs(EMPTY, a) && Runs(After(EMPTY, a), b) && After(EMPTY, a + b) == After(After(EMPTY, a), b)
  {
    if b == [] {
      assert a + b == a;
    } else {
      assert (a + b)[..|a + b| - 1] == a + b[..|b| - 1];
      RunsSplit(a, b[..|b| - 1]);
    }
  }

  // ----- a compensation from its claim to its end

  /** No compensation of the effect is admitted early after the first `n` actions. */
  ghost predicate NoneEarlyPast(s: System, actions: seq<Action>, n: nat, e: Effect)
    requires Runs(s, actions)
  {
    |actions| <= n ||
    var before, a := actions[..|actions| - 1], actions[|actions| - 1];
    NoneEarlyPast(s, before, n, e) && !(Admits(After(s, before), a, e) && StillToRun(After(s, before), e))
  }

  lemma ThenLate(s: System, actions: seq<Action>, n: nat, a: Action, e: Effect) returns (more: seq<Action>)
    requires Runs(s, actions) && Enabled(After(s, actions), a) && NoneEarlyPast(s, actions, n, e)
    requires a.Claim? ==> !After(s, actions).tasks[a.task].compensates
    ensures more == actions + [a] && Runs(s, more) && After(s, more) == Do(After(s, actions), a)
            && NoneEarlyPast(s, more, n, e)
  {
    more := Then(s, actions, a);
    assert more[..|actions|] == actions;
  }

  lemma {:induction false} RunsJoin(s: System, a: seq<Action>, b: seq<Action>, n: nat, e: Effect)
    requires Runs(s, a) && Runs(After(s, a), b)
    ensures Runs(s, a + b) && After(s, a + b) == After(After(s, a), b)
    ensures NoneEarlyPast(After(s, a), b, n, e) ==> NoneEarlyPast(s, a + b, |a| + n, e)
  {
    if b == [] {
      assert a + b == a;
    } else {
      assert (a + b)[..|a + b| - 1] == a + b[..|b| - 1];
      RunsJoin(s, a, b[..|b| - 1], n, e);
    }
  }

  /** A compensator confirmed for a pending branch, up to its durable completion. */
  /** The compensation up to its durable intent. */
  lemma Compensating2(s: System, c: nat) returns (actions: seq<Action>)
    requires c in s.tasks && Admits(s, Claim(c), s.tasks[c].effect)
    ensures actions == [Claim(c), Append(c, Landed)] && Runs(s, actions)
    ensures NoneEarlyPast(s, actions, 1, s.tasks[c].effect) && s.tasks[c].compensates
    ensures s.tasks[c].effect in s.memory && After(s, actions) == s.(
              log := s.log + [Intent(s.tasks[c].key, s.tasks[c].effect)],
              tasks := s.tasks[c := s.tasks[c].(phase := Running, check := s.memory[s.tasks[c].effect].check)])
  {
    hide AfterClaim, Claimed, Runs, After, NoneEarlyPast;
    RunsNothing(s);
    actions := Then(s, [], Claim(c));
    NoneYet(s, actions, s.tasks[c].effect);
    actions := ThenLate(s, actions, 1, Append(c, Landed), s.tasks[c].effect);
  }

  lemma Compensating4(s: System, c: nat, pass: bool) returns (actions: seq<Action>)
    requires c in s.tasks && Admits(s, Claim(c), s.tasks[c].effect)
    ensures actions == [Claim(c), Append(c, Landed), Invoke(c, Succeeds(pass)), Append(c, Landed)] && Runs(s, actions)
    ensures NoneEarlyPast(s, actions, 1, s.tasks[c].effect)
    ensures var n, e := After(s, actions), s.tasks[c].effect; var clean := pass && s.memory[e].check == Given;
            && n.log == s.log + [Intent(s.tasks[c].key, e)] + [Completed(s.tasks[c].key, e, clean)]
            && n.memory == s.memory && n.holder == s.holder && c in n.tasks
            && n.tasks[c] == s.tasks[c].(check := s.memory[e].check, phase := Resolving(Compensated(clean)))
            && (forall t :: t in s.tasks && t != c ==> t in n.tasks && n.tasks[t] == s.tasks[t])
            && (forall t :: t in n.tasks ==> t in s.tasks)
  {
    hide AfterClaim, Claimed, Runs, After, NoneEarlyPast, Admits;
    var e := s.tasks[c].effect;
    actions := Compensating2(s, c);
    actions := ThenLate(s, actions, 1, Invoke(c, Succeeds(pass)), e);
    actions := ThenLate(s, actions, 1, Append(c, Landed), e);
  }

  lemma NoneYet(s: System, actions: seq<Action>, e: Effect)
    requires Runs(s, actions) && |actions| <= 1
    ensures NoneEarlyPast(s, actions, 1, e)
  {}

  lemma ClosedBy(log: seq<Event>, key: Key, e: Effect, clean: bool)
    ensures Closed(log + [Intent(key, e)] + [Completed(key, e, clean)], e)
  {
    var more := log + [Intent(key, e)] + [Completed(key, e, clean)];
    assert About(more[|more| - 1], e) && more[|more| - 1].Completed?;
  }

  // ----- exactly when an inverse can follow a closing

  /** An inverse of the effect may run now, after a durable completion or resolution. */
  predicate Unsafe(s: System, e: Effect) {
    Closed(s.log, e) && exists t :: t in s.tasks && Invokes(s, Invoke(t, Fails), e)
  }

  /** After this admission and no further early one, an inverse may run after a durable closing. */
  ghost predicate LeadsPast(before: seq<Action>, c: nat, more: seq<Action>, e: Effect) {
    var all := before + [Claim(c)] + more;
    Runs(EMPTY, all) && NoneEarlyPast(EMPTY, all, |before| + 1, e) && Unsafe(After(EMPTY, all), e)
  }

  /** While the holder waits, the compensation runs to its completion first, then the holder goes on. */
  lemma HolderOvertaken(s: System, c: nat, e: Effect) returns (actions: seq<Action>)
    requires Admits(s, Claim(c), e)
    requires e in s.holder && s.holder[e] in s.tasks && Waits(s.tasks[s.holder[e]].phase)
    requires s.tasks[s.holder[e]].effect == e && !s.tasks[s.holder[e]].compensates
    ensures [Claim(c)] <= actions && Runs(s, actions) && NoneEarlyPast(s, actions, 1, e) && Unsafe(After(s, actions), e)
  {
    hide Runs, After, NoneEarlyPast, Closed, AfterClaim;
    var t := s.holder[e];
    actions := Compensating4(s, c, true);
    ClosedBy(s.log, s.tasks[c].key, e, s.memory[e].check == Given);
    if s.tasks[t].phase.Intending? {
      var log := After(s, actions).log;
      actions := ThenLate(s, actions, 1, Append(t, Landed), e);
      ClosedStays(log, After(s, actions).log, e);
    }
    assert Invokes(After(s, actions), Invoke(t, Fails), e);
  }

  lemma ClosedStays(log: seq<Event>, more: seq<Event>, e: Effect)
    requires log <= more && Closed(log, e)
    ensures Closed(more, e)
  {
    var i :| 0 <= i < |log| && About(log[i], e) && (log[i].Completed? || log[i].Resolved?);
    assert more[i] == log[i];
  }

  ghost function Above(ids: set<nat>): (n: nat)
    ensures forall x :: x in ids ==> x < n
  {
    if ids == {} then 0 else
      var x :| x in ids;
      var n := Above(ids - {x});
      assert forall y :: y in ids ==> y == x || y in ids - {x};
      if x < n then n else x + 1
  }

  /** A branch that may resume is granted to a later revert of its key, whatever closed it meanwhile. */
  lemma ResumesAfterward(s: System, c: nat, e: Effect) returns (actions: seq<Action>)
    requires Admits(s, Claim(c), e) && s.memory[e].resumable
    ensures [Claim(c)] <= actions && Runs(s, actions) && NoneEarlyPast(s, actions, 1, e) && Unsafe(After(s, actions), e)
  {
    hide Runs, After, NoneEarlyPast, Closed;
    actions := Compensating4(s, c, true);
    ClosedBy(s.log, s.tasks[c].key, e, s.memory[e].check == Given);
    actions := Resuming(s, actions, 1, Above(s.tasks.Keys), e);
  }

  /** A revert called for under a resumable branch's own key is granted, and may run its inverse. */
  lemma Resuming(s: System, before: seq<Action>, n: nat, t: nat, e: Effect) returns (actions: seq<Action>)
    requires Runs(s, before) && NoneEarlyPast(s, before, n, e) && t !in After(s, before).tasks
    requires var m := After(s, before).memory; e in m && m[e].resumable
    ensures before <= actions && Runs(s, actions) && NoneEarlyPast(s, actions, n, e)
    ensures After(s, actions).log == After(s, before).log && Invokes(After(s, actions), Invoke(t, Fails), e)
  {
    hide Runs, After, NoneEarlyPast;
    actions := ThenLate(s, before, n, Start(t, e, After(s, before).memory[e].key, false), e);
    actions := ThenLate(s, actions, n, Look(t), e);
    actions := ThenLate(s, actions, n, Claim(t), e);
  }

  lemma {:induction false} NotOvertakenLater(actions: seq<Action>, n: nat, e: Effect)
    requires Runs(EMPTY, actions) && n <= |actions| && NoneEarlyPast(EMPTY, actions, n, e)
    requires Runs(EMPTY, actions[..n]) && !Overtaken(actions[..n], e)
    ensures !Overtaken(actions, e)
  {
    if n == |actions| {
      assert actions[..n] == actions;
    } else {
      assert actions[..|actions| - 1][..n] == actions[..n];
      NotOvertakenLater(actions[..|actions| - 1], n, e);
    }
  }

  /**
   * Exactly when a compensation lets an inverse run after a durable completion or resolution: when, as it is
   * admitted, the effect's branch may still resume, or its holder has its grant and has not invoked yet.
   */
  lemma InverseFollowsClosingWhen(before: seq<Action>, c: nat, e: Effect)
    requires Runs(EMPTY, before) && Admits(After(EMPTY, before), Claim(c), e) && !Overtaken(before, e)
    ensures StillToRun(After(EMPTY, before), e) <==> exists more :: LeadsPast(before, c, more, e)
  {
    hide Runs, After, NoneEarlyPast, Unsafe, Overtaken;
    var s := After(EMPTY, before);
    if StillToRun(s, e) {
      RunsGuard(before, e);
      var actions;
      if s.memory[e].resumable {
        actions := ResumesAfterward(s, c, e);
      } else {
        actions := HolderOvertaken(s, c, e);
      }
      RunsJoin(EMPTY, before, actions, 1, e);
      assert before + [Claim(c)] + actions[1..] == before + actions;
      assert LeadsPast(before, c, actions[1..], e);
    }
    if more :| LeadsPast(before, c, more, e) {
      if !StillToRun(s, e) { LateLeadsNowhere(before, c, more, e); }
    }
  }

  lemma LateLeadsNowhere(before: seq<Action>, c: nat, more: seq<Action>, e: Effect)
    requires Runs(EMPTY, before) && Admits(After(EMPTY, before), Claim(c), e) && !Overtaken(before, e)
    requires !StillToRun(After(EMPTY, before), e)
    ensures !LeadsPast(before, c, more, e)
  {
    hide NoneEarlyPast;
    var first := Then(EMPTY, before, Claim(c));
    assert first[..|before|] == before;
    if LeadsPast(before, c, more, e) {
      var all := before + [Claim(c)] + more;
      assert all[..|before| + 1] == first;
      NotOvertakenLater(all, |before| + 1, e);
      hide Runs, After, Overtaken;
      var t :| t in After(EMPTY, all).tasks && Invokes(After(EMPTY, all), Invoke(t, Fails), e);
      InverseFollowsClosingOnly(all, Invoke(t, Fails), e);
    }
  }

  /** A granted revert's branch reads as pending until it resolves, so a compensation is admitted meanwhile. */
  lemma InFlightIsPending(s: System, t: nat)
    requires t in s.tasks && Kept(s, s.tasks[t].effect) && Holds(s.tasks[t].phase) && !s.tasks[t].phase.Announcing?
    ensures s.tasks[t].effect in s.memory && s.memory[s.tasks[t].effect].state == PendingRevert
  {
    assert TaskKept(s, t);
  }

  /** The last two steps of a compensation: resolved in memory, announced in the log. */
  lemma Announced(s: System, c: nat) returns (actions: seq<Action>)
    requires c in s.tasks && s.tasks[c].phase.Resolving? && s.tasks[c].effect in s.memory
    ensures actions == [Settle(c), Append(c, Landed)] && Runs(s, actions)
    ensures var n, e, state := After(s, actions), s.tasks[c].effect, s.tasks[c].phase.state;
            && n.log == s.log + [Resolved(e, state)] && n.memory == s.memory[e := s.memory[e].(state := state)]
            && c in n.tasks && n.tasks[c].phase == Ended(Answered(state))
  {
    actions := [];
    actions := Then(s, actions, Settle(c));
    actions := Then(s, actions, Append(c, Landed));
  }

  /**
   * Resolving does not clear a hydrated branch's claim to resume: once a compensation has completed and
   * resolved, a same-key revert is granted again exactly when the branch was resumable.
   */
  lemma RetryAfterCompensation(s: System, c: nat, pass: bool) returns (actions: seq<Action>)
    requires c in s.tasks && Admits(s, Claim(c), s.tasks[c].effect)
    ensures Runs(s, actions)
    ensures var n, e := After(s, actions), s.tasks[c].effect; var clean := pass && s.memory[e].check == Given;
            && c in n.tasks && n.tasks[c].phase == Ended(Answered(Compensated(clean)))
            && Closed(n.log, e) && e in n.memory
            && Claimed(n.memory, e, s.memory[e].key) ==
                 (if s.memory[e].resumable then Resumed else Recorded(Compensated(clean)))
  {
    hide Do, Runs, After, AfterClaim, Closed;
    var first := Compensating4(s, c, pass);
    var last := Announced(After(s, first), c);
    RunsJoin(s, first, last, 0, s.tasks[c].effect);
    actions := first + last;
    ClosedLast(After(s, first).log, s.tasks[c].effect, After(s, first).tasks[c].phase.state);
  }

  lemma ClosedLast(log: seq<Event>, e: Effect, state: Resolution)
    ensures Closed(log + [Resolved(e, state)], e)
  {
    var more := log + [Resolved(e, state)];
    assert About(more[|more| - 1], e) && more[|more| - 1].Resolved?;
  }

  // ----- all of it is reached from nothing

  /** A first task's run up to its durable intent. */
  lemma IntentIsReached(e: Effect, key: Key) returns (actions: seq<Action>)
    ensures Runs(EMPTY, actions)
    ensures After(EMPTY, actions) ==
              System([Intent(key, e)], map[e := Branch(key, PendingRevert, Given, false)],
                     map[0 := Task(e, key, false, Given, Running)], 0, map[e := 0], multiset{e}, multiset{}, {})
  {
    hide Runs, After;
    actions := ClaimIsReached(e, key);
    actions := Then(EMPTY, actions, Claim(0));
    actions := Then(EMPTY, actions, Append(0, Landed));
  }

  lemma ClaimIsReached(e: Effect, key: Key) returns (actions: seq<Action>)
    ensures Runs(EMPTY, actions)
    ensures After(EMPTY, actions) == EMPTY.(tasks := map[0 := Task(e, key, false, Given, Claiming)])
  {
    hide Runs, After;
    RunsNothing(EMPTY);
    actions := Then(EMPTY, [], Start(0, e, key, false));
    actions := Then(EMPTY, actions, Look(0));
    actions := Then(EMPTY, actions, Fetch(0, true));
    actions := Then(EMPTY, actions, Seed(0));
  }

  /** A compensation called for while that task waits to invoke: it is about to be admitted. */
  lemma HeldIsReached(e: Effect, key: Key, other: Key) returns (actions: seq<Action>)
    ensures Runs(EMPTY, actions)
    ensures var s := After(EMPTY, actions);
            && Admits(s, Claim(1), e) && e in s.holder && s.holder[e] == 0 && 0 in s.tasks
            && s.tasks[0] == Task(e, key, false, Given, Running)
  {
    hide Runs, After;
    actions := IntentIsReached(e, key);
    actions := Then(EMPTY, actions, Start(1, e, other, true));
    actions := Then(EMPTY, actions, Look(1));
  }

  /**
   * A run from nothing at whose end an inverse may run though its effect's completion is durable: a
   * compensation overtook it.
   */
  lemma CompensationOvertakes(e: Effect, key: Key, other: Key)
    ensures exists actions :: Runs(EMPTY, actions) && Unsafe(After(EMPTY, actions), e)
  {
    hide Runs, After, Unsafe, NoneEarlyPast;
    var before := HeldIsReached(e, key, other);
    var more := HolderOvertaken(After(EMPTY, before), 1, e);
    RunsJoin(EMPTY, before, more, 1, e);
    assert Runs(EMPTY, before + more);
  }

  /** The task's inverse fails: it ends with the branch pending, its witness live. */
  lemma ErrorIsReached(e: Effect, key: Key) returns (actions: seq<Action>)
    ensures Runs(EMPTY, actions)
    ensures After(EMPTY, actions) ==
              System([Intent(key, e), ErrorRecorded], map[e := Branch(key, PendingRevert, Given, false)],
                     map[0 := Task(e, key, false, Given, Resolving(PendingRevert))], 0, map[e := 0],
                     multiset{e}, multiset{e}, {})
  {
    hide Runs, After;
    actions := IntentIsReached(e, key);
    actions := Then(EMPTY, actions, Invoke(0, Fails));
    actions := Then(EMPTY, actions, Append(0, Landed));
  }

  lemma FailureIsReached(e: Effect, key: Key) returns (actions: seq<Action>)
    ensures Runs(EMPTY, actions)
    ensures var s := After(EMPTY, actions);
            && s.memory == map[e := Branch(key, PendingRevert, Given, false)] && s.tasks.Keys == {0}
            && s.log == [Intent(key, e), ErrorRecorded, Resolved(e, PendingRevert)]
  {
    hide Runs, After;
    actions := ErrorIsReached(e, key);
    actions := Then(EMPTY, actions, Settle(0));
    actions := Then(EMPTY, actions, Append(0, Landed));
  }

  /**
   * A run from nothing that crashes between a compensation's clean completion and its resolution: the effect
   * reads as reverted.
   */
  lemma ForgottenIsReached(e: Effect, key: Key, other: Key)
    ensures exists actions :: Runs(EMPTY, actions) && var s := After(EMPTY, actions);
              && s.tasks == map[] && s.memory == map[]
              && Rebuilt(Read(s.log, e)) == Some(Branch(key, Reverted, Witness.Lost, false))
  {
    hide Runs, After, NoneEarlyPast;
    var before := FailureIsReached(e, key);
    before := Then(EMPTY, before, Start(1, e, other, true));
    before := Then(EMPTY, before, Look(1));
    var s := After(EMPTY, before);
    var more := Compensating4(s, 1, true);
    RunsJoin(EMPTY, before, more, 1, e);
    var all := Then(EMPTY, before + more, Crash);
    ForgottenReads(e, key, other);
    assert Runs(EMPTY, all);
  }

  lemma ForgottenReads(e: Effect, key: Key, other: Key)
    ensures var first := [Intent(key, e), ErrorRecorded, Resolved(e, PendingRevert)];
            var log := first + [Intent(other, e)] + [Completed(other, e, true)];
            Rebuilt(Read(log, e)) == Some(Branch(key, Reverted, Witness.Lost, false))
  {
    var first := [Intent(key, e), ErrorRecorded, Resolved(e, PendingRevert)];
    ReadMore(first + [Intent(other, e)], Completed(other, e, true), e);
    ReadMore(first, Intent(other, e), e);
    assert first == (([] + [Intent(key, e)]) + [ErrorRecorded]) + [Resolved(e, PendingRevert)];
    ReadMore(([] + [Intent(key, e)]) + [ErrorRecorded], Resolved(e, PendingRevert), e);
    ReadMore([] + [Intent(key, e)], ErrorRecorded, e);
    ReadMore([], Intent(key, e), e);
  }

  lemma CrashIsReached(e: Effect, key: Key) returns (actions: seq<Action>)
    ensures Runs(EMPTY, actions) && After(EMPTY, actions) == EMPTY.(log := [Intent(key, e)], since := 1)
  {
    hide Runs, After;
    actions := IntentIsReached(e, key);
    actions := Then(EMPTY, actions, Crash);
  }

  /** A run from nothing that ends with a compensation about to claim a branch hydrated after a crash. */
  lemma ResumableIsReached(e: Effect, key: Key, other: Key) returns (actions: seq<Action>)
    ensures Runs(EMPTY, actions)
    ensures var s := After(EMPTY, actions);
            && Admits(s, Claim(1), e) && e in s.memory && s.memory[e] == Branch(key, PendingRevert, Witness.Lost, true)
  {
    hide Runs, After;
    actions := CrashIsReached(e, key);
    actions := Then(EMPTY, actions, Start(1, e, other, true));
    actions := Then(EMPTY, actions, Look(1));
    actions := Then(EMPTY, actions, Fetch(1, true));
    assert [Intent(key, e)][..0] == [];
    assert Read([Intent(key, e)], e) == Reading(Some(key), Some(PendingRevert), false);
    actions := Then(EMPTY, actions, Seed(1));
  }
}
