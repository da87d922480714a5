// The revert lane's records: ledger events, the fold that rebuilds a branch
// from them, and the table of claimed branches.

module Ledger {
  import opened Profiles

  type Effect = nat

  type Key = string

  datatype Resolution = Reverted | PendingRevert | Compensated(clean: bool)

  datatype Event =
    | Intent(key: Key, effect: Effect)
    | Completed(key: Key, effect: Effect, clean: bool)
    | Resolved(effect: Effect, resolution: Resolution)
    | ErrorRecorded

  /** A live witness, or the failing one a rebuilt branch is left with. */
  datatype Witness = Given | Lost

  datatype Branch = Branch(key: Key, state: Resolution, check: Witness, resumable: bool)

  // ----- the fold

  /** What a run of records says of one effect. */
  datatype Reading = Reading(bound: Option<Key>, state: Option<Resolution>, completed: bool)

  predicate About(event: Event, effect: Effect) { !event.ErrorRecorded? && event.effect == effect }

  function Next(r: Reading, event: Event, effect: Effect): Reading {
    if !About(event, effect) then r else
      match event
      case Intent(key, _) => Reading(
        if r.bound.None? then Some(key) else r.bound,
        if r.state.None? then Some(PendingRevert) else r.state,
        r.completed)
      case Completed(_, _, clean) => Reading(r.bound, Some(if clean then Reverted else PendingRevert), true)
      case Resolved(_, resolution) => Reading(r.bound, Some(resolution), true)
      case ErrorRecorded => r
  }

  function Read(log: seq<Event>, effect: Effect): Reading {
    if log == [] then Reading(None, None, false)
    else Next(Read(log[..|log| - 1], effect), log[|log| - 1], effect)
  }

  lemma ReadMore(log: seq<Event>, event: Event, effect: Effect)
    ensures Read(log + [event], effect) == Next(Read(log, effect), event, effect)
  {
    assert (log + [event])[..|log|] == log;
  }

  function Rebuilt(r: Reading): Option<Branch> {
    if r.bound.Some? && r.state.Some? then Some(Branch(r.bound.value, r.state.value, Lost, !r.completed)) else None
  }

  predicate Intended(log: seq<Event>, effect: Effect) {
    exists i :: 0 <= i < |log| && log[i].Intent? && About(log[i], effect)
  }

  /** A completion or a resolution is durable. */
  predicate Closed(log: seq<Event>, effect: Effect) {
    exists i :: 0 <= i < |log| && About(log[i], effect) && (log[i].Completed? || log[i].Resolved?)
  }

  function Intents(log: seq<Event>, effect: Effect): nat {
    if log == [] then 0 else
      var last := log[|log| - 1];
      Intents(log[..|log| - 1], effect) + if last.Intent? && last.effect == effect then 1 else 0
  }

  lemma IntentsMore(log: seq<Event>, event: Event, effect: Effect)
    ensures Intents(log + [event], effect) ==
              Intents(log, effect) + if event.Intent? && event.effect == effect then 1 else 0
  {
    assert (log + [event])[..|log|] == log;
  }

  /** What the fold finds: an intent, and whether it was ever closed. */
  lemma {:induction false} ReadSays(log: seq<Event>, effect: Effect)
    ensures Read(log, effect).bound.Some? <==> Intended(log, effect)
    ensures Read(log, effect).completed <==> Closed(log, effect)
    ensures Read(log, effect).bound.Some? ==> Read(log, effect).state.Some?
    ensures Intents(log, effect) == 0 <==> !Intended(log, effect)
    ensures !Read(log, effect).completed ==> Read(log, effect).state in {None, Some(PendingRevert)}
  {
    if log != [] {
      var before, last := log[..|log| - 1], log[|log| - 1];
      ReadSays(before, effect);
      assert log == before + [last];
      if Intended(before, effect) {
        var i :| 0 <= i < |before| && before[i].Intent? && About(before[i], effect);
        assert log[i] == before[i];
      }
      if Closed(before, effect) {
        var i :| 0 <= i < |before| && About(before[i], effect) && (before[i].Completed? || before[i].Resolved?);
        assert log[i] == before[i];
      }
      if Intended(log, effect) && !(last.Intent? && About(last, effect)) {
        var i :| 0 <= i < |log| && log[i].Intent? && About(log[i], effect);
        assert before[i] == log[i];
      }
      if Closed(log, effect) && !(About(last, effect) && (last.Completed? || last.Resolved?)) {
        var i :| 0 <= i < |log| && About(log[i], effect) && (log[i].Completed? || log[i].Resolved?);
        assert before[i] == log[i];
      }
    }
  }

  /** A rebuilt branch exists exactly when an intent is durable, and resumes exactly when nothing closed it. */
  lemma RebuiltWhen(log: seq<Event>, effect: Effect)
    ensures Rebuilt(Read(log, effect)).Some? <==> Intended(log, effect)
    ensures Rebuilt(Read(log, effect)).Some? ==>
              (Rebuilt(Read(log, effect)).value.resumable <==> !Closed(log, effect))
  {
    ReadSays(log, effect);
  }

  /** Records about other effects do not change what is read. */
  lemma {:induction false} ReadPast(log: seq<Event>, n: nat, effect: Effect)
    requires n <= |log| && forall i :: n <= i < |log| ==> !About(log[i], effect)
    ensures Read(log[..n], effect) == Read(log, effect)
  {
    if n < |log| {
      assert log[..|log| - 1][..n] == log[..n];
      ReadPast(log[..|log| - 1], n, effect);
    } else {
      assert log[..n] == log;
    }
  }

  /** Folds one effect's revert history out of the records; nothing when no intent ever landed for it. */
  method BranchFrom(records: seq<Event>, effect: Effect) returns (branch: Option<Branch>)
    ensures branch.Some? <==> Intended(records, effect)
    ensures branch.Some? ==> (branch.value.resumable <==> !Closed(records, effect)) && branch.value.check == Lost
    ensures branch == Rebuilt(Read(records, effect))
  {
    var bound: Option<Key>, state: Option<Resolution>, completed := None, None, false;
    for i := 0 to |records|
      invariant Reading(bound, state, completed) == Read(records[..i], effect)
    {
      assert records[..i + 1][..i] == records[..i];
      match records[i] {
        case Intent(key, at) =>
          if at == effect {
            if bound.None? { bound := Some(key); }
            if state.None? { state := Some(PendingRevert); }
          }
        case Completed(_, at, clean) =>
          if at == effect {
            completed := true;
            state := Some(if clean then Reverted else PendingRevert);
          }
        case Resolved(at, resolution) =>
          if at == effect {
            completed := true;
            state := Some(resolution);
          }
        case ErrorRecorded =>
      }
    }
    assert records[..|records|] == records;
    RebuiltWhen(records, effect);
    branch := if bound.Some? && state.Some? then Some(Branch(bound.value, state.value, Lost, !completed)) else None;
  }

  // ----- the claim step

  datatype Claim = Fresh | Resumed | Recorded(state: Resolution) | Refused

  type Memory = map<Effect, Branch>

  /** What a claim attempt observes. */
  function Claimed(memory: Memory, effect: Effect, key: Key): Claim {
    if effect !in memory then Fresh
    else if memory[effect].key != key then Refused
    else if memory[effect].resumable then Resumed
    else Recorded(memory[effect].state)
  }

  /** The branch table after a claim attempt. */
  function AfterClaim(memory: Memory, effect: Effect, key: Key): Memory {
    match Claimed(memory, effect, key)
    case Fresh => memory[effect := Branch(key, PendingRevert, Given, false)]
    case Resumed => memory[effect := memory[effect].(resumable := false, check := Given)]
    case _ => memory
  }

  function AfterSeed(memory: Memory, effect: Effect, branch: Branch): Memory {
    if effect in memory then memory else memory[effect := branch]
  }

  function AfterResolve(memory: Memory, effect: Effect, state: Resolution): Memory {
    if effect in memory then memory[effect := memory[effect].(state := state)] else memory
  }

  /** The branch table behind the revert lane; each method is one critical section. */
  class Branches {
    var branches: Memory

    constructor ()
      ensures branches == map[]
    {
      branches := map[];
    }

    method Claim(effect: Effect, key: Key, check: Witness) returns (claim: Claim)
      requires check == Given
      modifies this
      ensures claim == Claimed(old(branches), effect, key) && branches == AfterClaim(old(branches), effect, key)
      ensures claim == Fresh || claim == Resumed ==> effect in branches && !branches[effect].resumable
      ensures claim != Fresh && claim != Resumed ==> branches == old(branches)
    {
      if effect in branches {
        var branch := branches[effect];
        if branch.key != key { return Refused; }
        if branch.resumable {
          branches := branches[effect := branch.(resumable := false, check := check)];
          return Resumed;
        }
        return Recorded(branch.state);
      }
      branches := branches[effect := Branch(key, PendingRevert, check, false)];
      return Fresh;
    }

    function State(effect: Effect): Option<Resolution>
      reads this
    {
      if effect in branches then Some(branches[effect].state) else None
    }

    /** The branch's bound witness, when it is pending compensation. */
    function PendingWitness(effect: Effect): Option<Witness>
      reads this
    {
      if effect in branches && branches[effect].state == PendingRevert then Some(branches[effect].check) else None
    }

    method Resolve(effect: Effect, state: Resolution)
      modifies this
      ensures branches == AfterResolve(old(branches), effect, state)
    {
      if effect in branches { branches := branches[effect := branches[effect].(state := state)]; }
    }

    /** Memory is never overwritten by hydration. */
    method Seed(effect: Effect, branch: Branch)
      modifies this
      ensures branches == AfterSeed(old(branches), effect, branch)
    {
      if effect !in branches { branches := branches[effect := branch]; }
    }
  }
}
