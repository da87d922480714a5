// The keyed revert protocol as a state machine: tasks interleave over a branch
// table and a durable log, appends may fail, and a process may die at any point.

module Protocol {
  import opened Profiles
  import opened Ledger

  datatype Answer = Answered(state: Resolution) | Refusal | Broken

  datatype Phase =
    | Opening                         // about to look for a branch in memory
    | Fetching                        // none was there: about to read the ledger
    | Seeding(records: seq<Event>)    // about to seed what the records say
    | Claiming
    | Intending                       // about to append the intent
    | Running                         // about to run the inverse, or the compensator
    | Completing(clean: bool)         // it ended: about to append the completion
    | Erring                          // it failed: about to append the error
    | Resolving(state: Resolution)    // about to resolve the branch in memory
    | Announcing(state: Resolution)   // about to append the resolution
    | Ended(answer: Answer)

  /** One call of `revert`, or of `compensate` once an operator confirmed it. */
  datatype Task = Task(effect: Effect, key: Key, compensates: bool, check: Witness, phase: Phase)

  /**
   * The durable log, and one process: its branch table and its tasks. `since` is the log's length when
   * the process opened; `holder`, `grants`, `runs` and `marred` are history: who was granted each effect,
   * how often it was granted and its inverse run, and the effects one of whose appends failed.
   */
  datatype System = System(
    log: seq<Event>, memory: Memory, tasks: map<nat, Task>, since: nat,
    holder: map<Effect, nat>, grants: multiset<Effect>, runs: multiset<Effect>, marred: set<Effect>)

  /** A failed append may still have landed. */
  datatype Landing = Landed | Dropped | Ambiguous

  datatype Ending = Succeeds(pass: bool) | Fails

  datatype Action =
    | Start(task: nat, effect: Effect, key: Key, compensates: bool)
    | Look(task: nat)
    | Fetch(task: nat, readable: bool)
    | Seed(task: nat)
    | Claim(task: nat)
    | Append(task: nat, landing: Landing)
    | Invoke(task: nat, ending: Ending)
    | Settle(task: nat)
    | Crash

  const EMPTY := System([], map[], map[], 0, map[], multiset{}, multiset{}, {})

  predicate Appends(phase: Phase) { phase.Intending? || phase.Completing? || phase.Erring? || phase.Announcing? }

  predicate Enabled(s: System, a: Action) {
    match a
    case Crash => true
    case Start(t, _, _, _) => t !in s.tasks
    case _ => a.task in s.tasks && var phase := s.tasks[a.task].phase;
      match a
      case Look(_) => phase.Opening?
      case Fetch(_, _) => phase.Fetching?
      case Seed(_) => phase.Seeding?
      case Claim(_) => phase.Claiming?
      case Append(_, _) => Appends(phase)
      case Invoke(_, _) => phase.Running?
      case _ => phase.Resolving?
  }

  function EventOf(task: Task): Event
    requires Appends(task.phase)
  {
    match task.phase
    case Intending => Intent(task.key, task.effect)
    case Completing(clean) => Completed(task.key, task.effect, clean)
    case Announcing(state) => Resolved(task.effect, state)
    case _ => ErrorRecorded
  }

  function PhaseAfter(task: Task): Phase
    requires Appends(task.phase)
  {
    match task.phase
    case Intending => Running
    case Completing(clean) =>
      Resolving(if task.compensates then Compensated(clean) else if clean then Reverted else PendingRevert)
    case Announcing(state) => Ended(Answered(state))
    case _ => if task.compensates then Ended(Answered(PendingRevert)) else Resolving(PendingRevert)
  }

  function Moved(s: System, t: nat, phase: Phase): System
    requires t in s.tasks
  {
    s.(tasks := s.tasks[t := s.tasks[t].(phase := phase)])
  }

  function DoClaim(s: System, t: nat): System
    requires t in s.tasks
  {
    var task := s.tasks[t];
    if task.compensates then
      if task.effect in s.memory && s.memory[task.effect].state == PendingRevert then
        s.(tasks := s.tasks[t := task.(phase := Intending, check := s.memory[task.effect].check)])
      else Moved(s, t, Ended(Refusal))
    else
      var claimed := s.(memory := AfterClaim(s.memory, task.effect, task.key));
      match Claimed(s.memory, task.effect, task.key)
      case Refused => Moved(s, t, Ended(Refusal))
      case Recorded(state) => Moved(s, t, Ended(Answered(state)))
      case Fresh =>
        Moved(claimed, t, Intending).(holder := s.holder[task.effect := t], grants := s.grants + multiset{task.effect})
      case Resumed =>
        Moved(claimed, t, Running).(holder := s.holder[task.effect := t], grants := s.grants + multiset{task.effect})
  }

  function Do(s: System, a: Action): System
    requires Enabled(s, a)
  {
    match a
    case Crash => EMPTY.(log := s.log, since := |s.log|)
    case Start(t, effect, key, compensates) => s.(tasks := s.tasks[t := Task(effect, key, compensates, Given, Opening)])
    case Look(t) => Moved(s, t, if s.tasks[t].effect in s.memory then Claiming else Fetching)
    case Fetch(t, readable) => Moved(s, t, if readable then Seeding(s.log) else Ended(Refusal))
    case Seed(t) =>
      var task := s.tasks[t];
      var rebuilt := Rebuilt(Read(task.phase.records, task.effect));
      Moved(if rebuilt.Some? then s.(memory := AfterSeed(s.memory, task.effect, rebuilt.value)) else s, t, Claiming)
    case Claim(t) => DoClaim(s, t)
    case Append(t, landing) =>
      var task := s.tasks[t];
      var logged := s.(log := if landing == Dropped then s.log else s.log + [EventOf(task)]);
      if landing.Landed? then Moved(logged, t, PhaseAfter(task))
      else Moved(logged, t, Ended(Broken)).(marred := s.marred + {task.effect})
    case Invoke(t, ending) =>
      var task := s.tasks[t];
      Moved(s, t, if ending.Succeeds? then Completing(ending.pass && task.check == Given) else Erring)
        .(runs := if task.compensates then s.runs else s.runs + multiset{task.effect})
    case Settle(t) =>
      var task := s.tasks[t];
      Moved(s.(memory := AfterResolve(s.memory, task.effect, task.phase.state)), t, Announcing(task.phase.state))
  }

  // ----- runs

  ghost predicate Runs(s: System, actions: seq<Action>)
    decreases |actions|, 0
  {
    actions == [] || (Runs(s, actions[..|actions| - 1])
                      && Enabled(After(s, actions[..|actions| - 1]), actions[|actions| - 1]))
  }

  ghost function After(s: System, actions: seq<Action>): System
    requires Runs(s, actions)
    decreases |actions|, 1
  {
    if actions == [] then s else Do(After(s, actions[..|actions| - 1]), actions[|actions| - 1])
  }

  /** One more action on a run. */
  lemma Then(s: System, actions: seq<Action>, a: Action) returns (more: seq<Action>)
    requires Runs(s, actions) && Enabled(After(s, actions), a)
    ensures more == actions + [a] && Runs(s, more) && After(s, more) == Do(After(s, actions), a)
  {
    more := actions + [a];
    assert more[..|actions|] == actions;
  }

  lemma RunsNothing(s: System)
    ensures Runs(s, []) && After(s, []) == s
  {}

  // ----- steps of tasks on other effects

  /** Whether an action is one of a task on this effect, or a crash. */
  predicate Concerns(s: System, a: Action, e: Effect)
    requires Enabled(s, a)
  {
    match a
    case Crash => true
    case Start(_, effect, _, _) => effect == e
    case _ => s.tasks[a.task].effect == e
  }

  /** Two systems alike in all that concerns one effect, but for records about others. */
  ghost predicate Apart(s: System, n: System, e: Effect) {
    && n.since == s.since && s.log <= n.log && (forall i :: |s.log| <= i < |n.log| ==> !About(n.log[i], e))
    && (e in n.memory <==> e in s.memory) && (e in s.memory ==> n.memory[e] == s.memory[e])
    && (e in n.holder <==> e in s.holder) && (e in s.holder ==> n.holder[e] == s.holder[e])
    && n.grants[e] == s.grants[e] && n.runs[e] == s.runs[e] && (e in n.marred <==> e in s.marred)
    && (forall t :: t in n.tasks && n.tasks[t].effect == e <==> t in s.tasks && s.tasks[t].effect == e)
    && (forall t :: t in s.tasks && s.tasks[t].effect == e ==> n.tasks[t] == s.tasks[t])
  }

  lemma OthersApart(s: System, a: Action, n: System, e: Effect)
    requires Enabled(s, a) && !Concerns(s, a, e) && n == Do(s, a)
    ensures Apart(s, n, e)
  {
    match a
    case Claim(t) => ClaimApart(s, t, n, e);
    case Append(t, landing) => AppendApart(s, t, landing, n, e);
    case _ => RestApart(s, a, n, e);
  }

  lemma ClaimApart(s: System, t: nat, n: System, e: Effect)
    requires Enabled(s, Claim(t)) && s.tasks[t].effect != e && n == Do(s, Claim(t))
    ensures Apart(s, n, e)
  {
    if Claimed(s.memory, s.tasks[t].effect, s.tasks[t].key) in {Fresh, Resumed} && !s.tasks[t].compensates {
      GrantApart(s, t, n, e);
    }
  }

  lemma GrantApart(s: System, t: nat, n: System, e: Effect)
    requires Enabled(s, Claim(t)) && s.tasks[t].effect != e && n == Do(s, Claim(t))
    requires Claimed(s.memory, s.tasks[t].effect, s.tasks[t].key) in {Fresh, Resumed} && !s.tasks[t].compensates
    ensures Apart(s, n, e)
  {
    assert n.log == s.log && n.since == s.since && n.runs == s.runs && n.marred == s.marred;
    assert n.memory == AfterClaim(s.memory, s.tasks[t].effect, s.tasks[t].key);
    assert n.holder == s.holder[s.tasks[t].effect := t] && n.grants == s.grants + multiset{s.tasks[t].effect};
    hide Do;
  }

  lemma AppendApart(s: System, t: nat, landing: Landing, n: System, e: Effect)
    requires Enabled(s, Append(t, landing)) && s.tasks[t].effect != e && n == Do(s, Append(t, landing))
    ensures Apart(s, n, e)
  {}

  lemma RestApart(s: System, a: Action, n: System, e: Effect)
    requires Enabled(s, a) && !Concerns(s, a, e) && n == Do(s, a) && !a.Claim? && !a.Append?
    ensures Apart(s, n, e)
  {}

  /** Records about other effects change nothing the log says of this one. */
  lemma ApartReads(s: System, n: System, e: Effect)
    requires Apart(s, n, e)
    ensures Read(n.log, e) == Read(s.log, e) && Intents(n.log, e) == Intents(s.log, e)
    ensures Quiet(s, e) && s.since <= |s.log| ==> Quiet(n, e)
  {
    assert n.log[..|s.log|] == s.log;
    ReadPast(n.log, |s.log|, e);
    IntentsPast(n.log, |s.log|, e);
  }

  lemma {:induction false} IntentsPast(log: seq<Event>, n: nat, e: Effect)
    requires n <= |log| && forall i :: n <= i < |log| ==> !About(log[i], e)
    ensures Intents(log[..n], e) == Intents(log, e)
  {
    if n < |log| {
      assert log[..|log| - 1][..n] == log[..n];
      IntentsPast(log[..|log| - 1], n, e);
    } else {
      assert log[..n] == log;
    }
  }

  // ----- what every run keeps of an effect no compensation is called for

  predicate Holds(phase: Phase) {
    phase.Intending? || phase.Running? || phase.Completing? || phase.Erring? || phase.Resolving? || phase.Announcing?
  }

  /** How the log, the branch in memory and the granted task's phase fit together for one effect. */
  predicate Fits(r: Reading, branch: Branch, phase: Phase, marred: bool) {
    var interrupted := Reading(Some(branch.key), Some(PendingRevert), false);
    match phase
    case Intending => r == Reading(None, None, false) && branch.state == PendingRevert
    case Running => r == interrupted && branch.state == PendingRevert
    case Completing(_) => r == interrupted && branch.state == PendingRevert
    case Erring => r == interrupted && branch.state == PendingRevert
    case Resolving(state) =>
      r.bound == Some(branch.key) && r.state == Some(state) && branch.state == PendingRevert
    case Announcing(state) => r.bound == Some(branch.key) && r.state == Some(state) && branch.state == state
    case Ended(answer) =>
      marred || (r == Reading(Some(branch.key), Some(branch.state), true) && answer == Answered(branch.state))
    case _ => false
  }

  /** Nothing about an effect landed since the process opened. */
  predicate Quiet(s: System, effect: Effect)
  {
    forall i :: s.since <= i < |s.log| ==> !About(s.log[i], effect)
  }

  ghost predicate TaskKept(s: System, t: nat)
    requires t in s.tasks
  {
    var task := s.tasks[t];
    && !task.compensates && task.check == Given
    && (Holds(task.phase) ==> task.effect in s.holder && s.holder[task.effect] == t)
    && (task.phase.Seeding? ==> s.since <= |task.phase.records| && task.phase.records <= s.log)
    && (task.phase.Claiming? && task.effect !in s.memory ==> Read(s.log, task.effect).bound.None?)
  }

  ghost predicate EffectKept(s: System, e: Effect) {
    && Intents(s.log, e) <= 1
    && (Read(s.log, e).bound.None? ==> Read(s.log, e) == Reading(None, None, false))
    && s.runs[e] <= s.grants[e]
    && (if e in s.holder then
          && s.grants[e] == 1 && e in s.memory && !s.memory[e].resumable
          && s.holder[e] in s.tasks && s.tasks[s.holder[e]].effect == e && s.tasks[s.holder[e]].key == s.memory[e].key
          && Fits(Read(s.log, e), s.memory[e], s.tasks[s.holder[e]].phase, e in s.marred)
          && (s.tasks[s.holder[e]].phase.Intending? || s.tasks[s.holder[e]].phase.Running? ==> s.runs[e] == 0)
        else
          && s.grants[e] == 0 && Quiet(s, e)
          && (e in s.memory ==> Rebuilt(Read(s.log, e)) == Some(s.memory[e])))
  }

  ghost predicate Kept(s: System, e: Effect) {
    && s.since <= |s.log|
    && (forall t :: t in s.tasks && s.tasks[t].effect == e ==> TaskKept(s, t))
    && EffectKept(s, e)
  }

  /** No compensation of an effect is called for. */
  predicate RevertsOnly(actions: seq<Action>, e: Effect) {
    forall i :: 0 <= i < |actions| && actions[i].Start? && actions[i].effect == e ==> !actions[i].compensates
  }

  lemma EmptyKept(e: Effect)
    ensures Kept(EMPTY, e)
  {}

  lemma ApartKept(s: System, n: System, e: Effect)
    requires Kept(s, e) && Apart(s, n, e)
    ensures Kept(n, e)
  {
    ApartReads(s, n, e);
    hide Fits, Read, Intents, Rebuilt;
    forall t | t in n.tasks && n.tasks[t].effect == e ensures TaskKept(n, t) { assert TaskKept(s, t); }
  }

  // ----- each action of its own tasks keeps it

  lemma StartKept(s: System, t: nat, e: Effect, key: Key, n: System)
    requires Kept(s, e) && t !in s.tasks && n == Do(s, Start(t, e, key, false))
    ensures Kept(n, e)
  {
    forall x | x in n.tasks && n.tasks[x].effect == e ensures TaskKept(n, x) { if x != t { assert TaskKept(s, x); } }
  }

  /** A step before any grant moves only its own task, and no one holds an effect through it. */
  lemma EarlyKept(s: System, t: nat, phase: Phase, n: System)
    requires t in s.tasks && Kept(s, s.tasks[t].effect) && n == Moved(s, t, phase)
    requires !Holds(s.tasks[t].phase) && !s.tasks[t].phase.Ended? && !Holds(phase)
    requires phase.Seeding? ==> s.since <= |phase.records| && phase.records <= s.log
    requires phase.Claiming? && s.tasks[t].effect !in s.memory ==> Read(s.log, s.tasks[t].effect).bound.None?
    ensures Kept(n, s.tasks[t].effect)
  {
    var e := s.tasks[t].effect;
    assert TaskKept(s, t);
    forall x | x in n.tasks && n.tasks[x].effect == e ensures TaskKept(n, x) { if x != t { assert TaskKept(s, x); } }
  }

  /** A snapshot taken since the process opened reads an ungranted effect as the log does now. */
  lemma SnapshotReads(s: System, records: seq<Event>, e: Effect)
    requires s.since <= |records| && records <= s.log && Quiet(s, e)
    ensures Read(records, e) == Read(s.log, e)
  {
    assert records == s.log[..|records|];
    ReadPast(s.log, |records|, e);
  }

  lemma LookKept(s: System, t: nat, n: System)
    requires Enabled(s, Look(t)) && Kept(s, s.tasks[t].effect) && n == Do(s, Look(t))
    ensures Kept(n, s.tasks[t].effect)
  {
    EarlyKept(s, t, n.tasks[t].phase, n);
  }

  lemma FetchKept(s: System, t: nat, readable: bool, n: System)
    requires Enabled(s, Fetch(t, readable)) && Kept(s, s.tasks[t].effect) && n == Do(s, Fetch(t, readable))
    ensures Kept(n, s.tasks[t].effect)
  {
    EarlyKept(s, t, n.tasks[t].phase, n);
  }

  lemma SeedKept(s: System, t: nat, n: System)
    requires Enabled(s, Seed(t)) && Kept(s, s.tasks[t].effect) && n == Do(s, Seed(t))
    ensures Kept(n, s.tasks[t].effect)
  {
    var task := s.tasks[t];
    var e := task.effect;
    assert TaskKept(s, t);
    var rebuilt := Rebuilt(Read(task.phase.records, e));
    if e !in s.memory {
      assert e !in s.holder;
      SnapshotReads(s, task.phase.records, e);
      ReadSays(s.log, e);
      if rebuilt.Some? {
        var m := s.(memory := AfterSeed(s.memory, e, rebuilt.value));
        forall x | x in m.tasks && m.tasks[x].effect == e ensures TaskKept(m, x) { assert TaskKept(s, x); }
        EarlyKept(m, t, Claiming, n);
      } else {
        EarlyKept(s, t, Claiming, n);
      }
    } else {
      EarlyKept(s, t, Claiming, n);
    }
  }

  lemma GrantKept(s: System, t: nat, n: System)
    requires Enabled(s, Claim(t)) && Kept(s, s.tasks[t].effect) && n == Do(s, Claim(t))
    requires Claimed(s.memory, s.tasks[t].effect, s.tasks[t].key) in {Fresh, Resumed}
    ensures s.tasks[t].effect !in s.holder && EffectKept(n, s.tasks[t].effect)
  {
    var e := s.tasks[t].effect;
    assert TaskKept(s, t);
    ReadSays(s.log, e);
  }

  lemma ClaimKept(s: System, t: nat, n: System)
    requires Enabled(s, Claim(t)) && Kept(s, s.tasks[t].effect) && n == Do(s, Claim(t))
    ensures Kept(n, s.tasks[t].effect)
  {
    var e := s.tasks[t].effect;
    assert TaskKept(s, t);
    if Claimed(s.memory, e, s.tasks[t].key) in {Fresh, Resumed} {
      GrantKept(s, t, n);
      hide EffectKept, Fits, Read;
      forall x | x in n.tasks && n.tasks[x].effect == e ensures TaskKept(n, x) { assert TaskKept(s, x); }
    } else {
      EarlyKept(s, t, n.tasks[t].phase, n);
    }
  }

  /** A granted task's append keeps its own effect in order. */
  lemma AppendEffect(s: System, t: nat, landing: Landing, n: System)
    requires Enabled(s, Append(t, landing)) && Kept(s, s.tasks[t].effect) && n == Do(s, Append(t, landing))
    ensures EffectKept(n, s.tasks[t].effect)
  {
    hide Read, Intents, Quiet;
    var task := s.tasks[t];
    assert TaskKept(s, t);
    IntentFree(s.log, task.effect);
    ReadMore(s.log, EventOf(task), task.effect);
    IntentsMore(s.log, EventOf(task), task.effect);
  }

  lemma IntentFree(log: seq<Event>, e: Effect)
    ensures Read(log, e).bound.None? ==> Intents(log, e) == 0
  {
    ReadSays(log, e);
  }

  lemma AppendKept(s: System, t: nat, landing: Landing, n: System)
    requires Enabled(s, Append(t, landing)) && Kept(s, s.tasks[t].effect) && n == Do(s, Append(t, landing))
    ensures Kept(n, s.tasks[t].effect)
  {
    AppendEffect(s, t, landing, n);
    hide Fits, Quiet;
    assert TaskKept(s, t);
    ReadMore(s.log, EventOf(s.tasks[t]), s.tasks[t].effect);
    forall x | x in n.tasks && n.tasks[x].effect == s.tasks[t].effect ensures TaskKept(n, x) { assert TaskKept(s, x); }
  }

  lemma InvokeKept(s: System, t: nat, ending: Ending, n: System)
    requires Enabled(s, Invoke(t, ending)) && Kept(s, s.tasks[t].effect) && n == Do(s, Invoke(t, ending))
    ensures Kept(n, s.tasks[t].effect)
  {
    assert TaskKept(s, t);
    forall x | x in n.tasks && n.tasks[x].effect == s.tasks[t].effect ensures TaskKept(n, x) { assert TaskKept(s, x); }
  }

  lemma SettleKept(s: System, t: nat, n: System)
    requires Enabled(s, Settle(t)) && Kept(s, s.tasks[t].effect) && n == Do(s, Settle(t))
    ensures Kept(n, s.tasks[t].effect)
  {
    assert TaskKept(s, t);
    forall x | x in n.tasks && n.tasks[x].effect == s.tasks[t].effect ensures TaskKept(n, x) { assert TaskKept(s, x); }
  }

  lemma CrashKept(s: System, n: System, e: Effect)
    requires Kept(s, e) && n == Do(s, Crash)
    ensures Kept(n, e)
  {}

  /** Whatever other tasks do meanwhile, compensations of other effects among it. */
  lemma StepKept(s: System, a: Action, n: System, e: Effect)
    requires Kept(s, e) && Enabled(s, a) && (a.Start? && a.effect == e ==> !a.compensates) && n == Do(s, a)
    ensures Kept(n, e)
  {
    if !Concerns(s, a, e) {
      OthersApart(s, a, n, e);
      ApartKept(s, n, e);
    } else {
      hide Kept, Do;
      match a
      case Start(t, _, key, _) => StartKept(s, t, e, key, n);
      case Look(t) => LookKept(s, t, n);
      case Fetch(t, readable) => FetchKept(s, t, readable, n);
      case Seed(t) => SeedKept(s, t, n);
      case Claim(t) => ClaimKept(s, t, n);
      case Append(t, landing) => AppendKept(s, t, landing, n);
      case Invoke(t, ending) => InvokeKept(s, t, ending, n);
      case Settle(t) => SettleKept(s, t, n);
      case Crash => CrashKept(s, n, e);
    }
  }

  lemma {:induction false} RunsKeep(actions: seq<Action>, e: Effect)
    requires Runs(EMPTY, actions) && RevertsOnly(actions, e)
    ensures Kept(After(EMPTY, actions), e)
  {
    if actions == [] {
      EmptyKept(e);
    } else {
      var before := actions[..|actions| - 1];
      RunsKeep(before, e);
      StepKept(After(EMPTY, before), actions[|actions| - 1], After(EMPTY, actions), e);
    }
  }

  // ----- exactly once

  /**
   * Exactly once: whatever the interleaving, the failed appends and the crashes, the inverse of an effect no
   * compensation is called for runs only for the task granted it, only once in its process, with exactly
   * one intent durable, and never once a completion or a resolution is.
   */
  lemma {:induction false} InverseRunsAreSafe(actions: seq<Action>, i: nat, e: Effect)
    requires Runs(EMPTY, actions) && RevertsOnly(actions, e) && i < |actions|
    requires Runs(EMPTY, actions[..i]) && Invokes(After(EMPTY, actions[..i]), actions[i], e)
    ensures var s := After(EMPTY, actions[..i]); var t := actions[i].task;
            && e in s.holder && s.holder[e] == t && s.runs[e] == 0
            && Intents(s.log, e) == 1 && Intended(s.log, e) && !Closed(s.log, e)
  {
    RunsKeep(actions[..i], e);
    var s := After(EMPTY, actions[..i]);
    assert TaskKept(s, actions[i].task);
    ReadSays(s.log, e);
  }

  /** The action runs an inverse of the effect: a revert's, not a compensator. */
  predicate Invokes(s: System, a: Action, e: Effect) {
    Enabled(s, a) && a.Invoke? && s.tasks[a.task].effect == e && !s.tasks[a.task].compensates
  }

  /**
   * At every point one process grants such an effect at most once and runs its inverse at most once, over at
   * most one intent ever.
   */
  lemma {:induction false} AtMostOnce(actions: seq<Action>, e: Effect)
    requires Runs(EMPTY, actions) && RevertsOnly(actions, e)
    ensures var s := After(EMPTY, actions); s.runs[e] <= s.grants[e] <= 1 && Intents(s.log, e) <= 1
  {
    RunsKeep(actions, e);
  }

  /** No task on an effect is between its grant and its end. */
  ghost predicate Quiescent(s: System, e: Effect) {
    forall t :: t in s.tasks && s.tasks[t].effect == e ==> !Holds(s.tasks[t].phase)
  }

  /**
   * The log refines memory: once no granted task is on its way, what the log rebuilds of an effect whose
   * appends all landed is what memory holds of it, save the witness, which memory alone keeps.
   */
  lemma {:induction false} LogRefinesMemory(actions: seq<Action>, e: Effect)
    requires Runs(EMPTY, actions) && RevertsOnly(actions, e) && Quiescent(After(EMPTY, actions), e)
    requires e !in After(EMPTY, actions).marred
    ensures var s := After(EMPTY, actions);
            && (e in s.memory ==> Rebuilt(Read(s.log, e)) == Some(s.memory[e].(check := Witness.Lost)))
            && (e in s.holder ==> e in s.memory && !s.memory[e].resumable)
            && (e !in s.memory ==> Quiet(s, e))
            && (s.since == 0 ==> (e in s.memory <==> Intended(s.log, e)))
  {
    RunsKeep(actions, e);
    var s := After(EMPTY, actions);
    ReadSays(s.log, e);
    if e in s.holder { assert TaskKept(s, s.holder[e]); }
  }
}
