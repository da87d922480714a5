// The revert lane's own methods, one call at a time: each runs exactly the
// steps of its task in the protocol.

module Lane {
  import opened Profiles
  import opened Ledger
  import opened Protocol

  /** What one call meets: whether the records can be read, how its appends land, how its inverse ends. */
  datatype Script = Script(readable: bool, intent: Landing, ending: Ending, completion: Landing, resolution: Landing)

  class RevertLane {
    var ledger: seq<Event>
    const branches: Branches

    constructor (ledger: seq<Event>)
      ensures this.ledger == ledger && fresh(branches) && branches.branches == map[]
    {
      this.ledger := ledger;
      branches := new Branches();
    }

    /** The lane's log and branch table are the system's, and task `t` has come to `phase`. */
    ghost predicate Shows(s: System, t: nat, task: Task)
      reads this, branches
    {
      s.log == ledger && s.memory == branches.branches && t in s.tasks && s.tasks[t] == task
    }

    /** Appends the record a task's phase calls for: it lands or not, and may land unreported. */
    method Append(event: Event, landing: Landing, ghost s: System, ghost steps: seq<Action>, ghost t: nat,
                  ghost task: Task)
        returns (landed: bool, ghost done: seq<Action>)
      requires Runs(s, steps) && Shows(After(s, steps), t, task) && Appends(task.phase) && event == EventOf(task)
      modifies this
      ensures ledger == if landing == Dropped then old(ledger) else old(ledger) + [event]
      ensures landed == landing.Landed?
      ensures done == steps + [Action.Append(t, landing)] && Runs(s, done)
      ensures Shows(After(s, done), t, task.(phase := if landed then PhaseAfter(task) else Ended(Broken)))
    {
      hide Runs, After;
      if landing != Dropped { ledger := ledger + [event]; }
      landed := landing.Landed?;
      done := Then(s, steps, Action.Append(t, landing));
    }

    /** What the lane shows once the task's inverse, or its compensator, has ended. */
    lemma Invoked(s: System, steps: seq<Action>, t: nat, task: Task, ending: Ending) returns (done: seq<Action>)
      requires Runs(s, steps) && Shows(After(s, steps), t, task) && task.phase == Running
      ensures done == steps + [Invoke(t, ending)] && Runs(s, done)
      ensures Shows(After(s, done), t,
                task.(phase := if ending.Succeeds? then Completing(ending.pass && task.check == Given) else Erring))
    {
      hide Runs, After;
      done := Then(s, steps, Invoke(t, ending));
    }

    /** Records a branch's resolution: in memory first, then in the log. */
    method Resolve(effect: Effect, state: Resolution, landing: Landing,
                   ghost s: System, ghost steps: seq<Action>, ghost t: nat, ghost task: Task)
        returns (landed: bool, ghost done: seq<Action>)
      requires Runs(s, steps) && Shows(After(s, steps), t, task)
      requires task.effect == effect && task.phase == Resolving(state)
      modifies this, branches
      ensures Runs(s, done) && steps <= done
      ensures landed == landing.Landed?
      ensures Shows(After(s, done), t, task.(phase := if landed then Ended(Answered(state)) else Ended(Broken)))
    {
      hide Runs, After;
      branches.Resolve(effect, state);
      done := Then(s, steps, Settle(t));
      landed, done := Append(Resolved(effect, state), landing, s, done, t, task.(phase := Announcing(state)));
    }

    /** Runs a claimed branch's inverse and records its outcome. */
    method Complete(effect: Effect, key: Key, script: Script, ghost s: System, ghost steps: seq<Action>, ghost t: nat)
        returns (answer: Answer, ghost done: seq<Action>)
      requires Runs(s, steps) && Shows(After(s, steps), t, Task(effect, key, false, Given, Running))
      modifies this, branches
      ensures Runs(s, done) && steps <= done
      ensures Shows(After(s, done), t, Task(effect, key, false, Given, Ended(answer)))
    {
      hide Runs, After;
      ghost var task := Task(effect, key, false, Given, Running);
      done := Invoked(s, steps, t, task, script.ending);
      var landed: bool;
      match script.ending {
        case Succeeds(clean) =>
          landed, done := Append(Completed(key, effect, clean), script.completion, s, done, t,
                                 task.(phase := Completing(clean)));
          if !landed { return Broken, done; }
          var state := if clean then Reverted else PendingRevert;
          landed, done := Resolve(effect, state, script.resolution, s, done, t, task.(phase := Resolving(state)));
          answer := if landed then Answered(state) else Broken;
        case Fails =>
          landed, done := Append(ErrorRecorded, script.completion, s, done, t, task.(phase := Erring));
          if !landed { return Broken, done; }
          landed, done := Resolve(effect, PendingRevert, script.resolution, s, done, t,
                                  task.(phase := Resolving(PendingRevert)));
          answer := if landed then Answered(PendingRevert) else Broken;
      }
    }

    /** Reconstructs an effect's branch from the ledger when memory holds none. */
    method Hydrate(effect: Effect, readable: bool, ghost s: System, ghost steps: seq<Action>, ghost t: nat,
                   ghost task: Task)
        returns (hydrated: bool, ghost done: seq<Action>)
      requires Runs(s, steps) && Shows(After(s, steps), t, task) && task.effect == effect && task.phase == Opening
      modifies branches
      ensures Runs(s, done) && steps <= done
      ensures Shows(After(s, done), t, task.(phase := if hydrated then Claiming else Ended(Refusal)))
    {
      hide Runs, After;
      done := Then(s, steps, Look(t));
      if branches.State(effect).Some? { return true, done; }
      done := Then(s, done, Fetch(t, readable));
      if !readable { return false, done; }
      var rebuilt := BranchFrom(ledger, effect);
      if rebuilt.Some? { branches.Seed(effect, rebuilt.value); }
      done := Then(s, done, Action.Seed(t));
      hydrated := true;
    }

    /** One call of the revert protocol: its answer, its records and its branch are those of task `t`'s steps. */
    method Revert(effect: Effect, key: Key, script: Script, ghost s: System, ghost t: nat)
        returns (answer: Answer, ghost done: seq<Action>)
      requires s.log == ledger && s.memory == branches.branches && t !in s.tasks
      modifies this, branches
      ensures Runs(s, done) && [Start(t, effect, key, false)] <= done
      ensures Shows(After(s, done), t, Task(effect, key, false, Given, Ended(answer)))
    {
      Runs0(s);
      hide Runs, After;
      done := Then(s, [], Start(t, effect, key, false));
      var hydrated: bool;
      hydrated, done := Hydrate(effect, script.readable, s, done, t, Task(effect, key, false, Given, Opening));
      if !hydrated { return Refusal, done; }
      var claim := branches.Claim(effect, key, Given);
      done := Then(s, done, Action.Claim(t));
      match claim {
        case Refused => return Refusal, done;
        case Recorded(state) => return Answered(state), done;
        case Resumed => answer, done := Complete(effect, key, script, s, done, t);
        case Fresh =>
          var landed: bool;
          landed, done := Append(Intent(key, effect), script.intent, s, done, t,
                                 Task(effect, key, false, Given, Intending));
          if !landed { return Broken, done; }
          answer, done := Complete(effect, key, script, s, done, t);
      }
    }

    /** Runs an operator-confirmed compensator against a pending branch; nothing happens unconfirmed. */
    method Compensate(effect: Effect, key: Key, confirmed: bool, script: Script, ghost s: System, ghost t: nat)
        returns (answer: Answer, ghost done: seq<Action>, ghost check: Witness)
      requires s.log == ledger && s.memory == branches.branches && t !in s.tasks
      modifies this, branches
      ensures Runs(s, done)
      ensures !confirmed ==>
                answer == Refusal && done == [] && ledger == old(ledger) && branches.branches == old(branches.branches)
      ensures confirmed ==> && [Start(t, effect, key, true)] <= done
                            && Shows(After(s, done), t, Task(effect, key, true, check, Ended(answer)))
      ensures answer.Answered? ==> answer.state != Reverted
    {
      Runs0(s);
      hide Runs, After;
      done, check := [], Given;
      if !confirmed { return Refusal, done, check; }
      done := Then(s, done, Start(t, effect, key, true));
      var hydrated: bool;
      hydrated, done := Hydrate(effect, script.readable, s, done, t, Task(effect, key, true, Given, Opening));
      if !hydrated { return Refusal, done, check; }
      var bound := branches.PendingWitness(effect);
      if bound.None? {
        done := Then(s, done, Action.Claim(t));
        return Refusal, done, check;
      }
      answer, done := CompensatePending(effect, key, bound.value, script, s, done, t);
      check := bound.value;
    }

    /** The intent, durably, before the compensator may run. */
    method CompensatePending(effect: Effect, key: Key, check: Witness, script: Script,
                             ghost s: System, ghost steps: seq<Action>, ghost t: nat)
        returns (answer: Answer, ghost done: seq<Action>)
      requires Runs(s, steps) && Shows(After(s, steps), t, Task(effect, key, true, Given, Claiming))
      requires branches.PendingWitness(effect) == Some(check)
      modifies this, branches
      ensures Runs(s, done) && steps <= done
      ensures Shows(After(s, done), t, Task(effect, key, true, check, Ended(answer)))
      ensures answer.Answered? ==> answer.state != Reverted
    {
      hide Runs, After, AfterClaim, Claimed;
      done := Then(s, steps, Action.Claim(t));
      var landed: bool;
      landed, done := Append(Intent(key, effect), script.intent, s, done, t, Task(effect, key, true, check, Intending));
      if !landed { return Broken, done; }
      answer, done := Compensating(effect, key, check, script, s, done, t, Task(effect, key, true, check, Running));
    }

    /** Runs a compensator against its branch's own witness; its outcome is never a revert. */
    method Compensating(effect: Effect, key: Key, check: Witness, script: Script,
                        ghost s: System, ghost steps: seq<Action>, ghost t: nat, ghost task: Task)
        returns (answer: Answer, ghost done: seq<Action>)
      requires Runs(s, steps) && Shows(After(s, steps), t, task) && task == Task(effect, key, true, check, Running)
      modifies this, branches
      ensures Runs(s, done) && steps <= done
      ensures Shows(After(s, done), t, task.(phase := Ended(answer)))
      ensures answer.Answered? ==> answer.state != Reverted
    {
      hide Runs, After;
      done := Invoked(s, steps, t, task, script.ending);
      var landed: bool;
      match script.ending {
        case Succeeds(pass) =>
          var clean := pass && check == Given;
          landed, done := Append(Completed(key, effect, clean), script.completion, s, done, t,
                                 task.(phase := Completing(clean)));
          if !landed { return Broken, done; }
          landed, done := Resolve(effect, Compensated(clean), script.resolution, s, done, t,
                                  task.(phase := Resolving(Compensated(clean))));
          answer := if landed then Answered(Compensated(clean)) else Broken;
        case Fails =>
          landed, done := Append(ErrorRecorded, script.completion, s, done, t, task.(phase := Erring));
          answer := if landed then Answered(PendingRevert) else Broken;
      }
    }
  }

  lemma Runs0(s: System)
    ensures Runs(s, []) && After(s, []) == s
  {}
}
