// Forward effects and stepwise inverses: all or nothing going forward, last
// yielded first going back.

module Forward {
  import opened Profiles
  import opened Sequences
  import opened EffectTree
  import opened Scope

  // ----- stepwise inverses

  /**
   * Where a stepwise inverse stops: before the first step a cancellation is seen at, at the first step that
   * does not end well, or at the end.
   */
  function StopsAt(ends: seq<Outcome>, cancelled: nat -> bool, from: nat): (n: nat)
    requires from <= |ends|
    ensures from <= n <= |ends|
    ensures forall i :: from <= i < n ==> ends[i] == Done && !cancelled(i)
    ensures n < |ends| ==> cancelled(n) || ends[n] != Done
    decreases |ends| - from
  {
    if from == |ends| || cancelled(from) || ends[from] != Done then from else StopsAt(ends, cancelled, from + 1)
  }

  /**
   * Runs a stepwise inverse, reading its cancellation before each step and stopping at the first that does not
   * end well.
   */
  method WithdrawSteps(ends: seq<Outcome>, cancelled: nat -> bool, panicOnDrop: bool)
      returns (outcome: Outcome, ghost ran: nat)
    ensures var n := StopsAt(ends, cancelled, 0);
            && ran == (if n < |ends| && !cancelled(n) then n + 1 else n)
            && (panicOnDrop ==> outcome == Panicked)
            && (!panicOnDrop && n == |ends| ==> outcome == Done)
            && (!panicOnDrop && n < |ends| && cancelled(n) ==> outcome == Cancelled(n, |ends| - n))
            && (!panicOnDrop && n < |ends| && !cancelled(n) ==> outcome == ends[n])
  {
    var completed := 0;
    outcome, ran := Done, 0;
    while true
      invariant completed <= |ends| && ran == completed && outcome == Done
      invariant StopsAt(ends, cancelled, 0) == StopsAt(ends, cancelled, completed)
      decreases |ends| - completed
    {
      var remaining := |ends| - completed;
      if remaining == 0 { break; }
      if cancelled(completed) {
        outcome := Cancelled(completed, remaining);
        break;
      }
      ran := completed + 1;
      if ends[completed] != Done {
        outcome := ends[completed];
        break;
      }
      completed := completed + 1;
    }
    if panicOnDrop { outcome := Panicked; }
  }

  // ----- forward effects

  /** One launched action: the inverse it yields, or nothing when it fails. */
  type Launch = Option<Disposer>

  datatype End = Installed(inverses: seq<Disposer>) | Diverted(unwound: seq<Disposer>) | Failed(unwound: seq<Disposer>)

  /** Rolls back a yielded prefix, last yield first. */
  method Unwind(yielded: seq<Disposer>) returns (undone: seq<Disposer>)
    ensures undone == Reversed(yielded)
  {
    undone := [];
    var rest := yielded;
    while rest != []
      invariant undone + Reversed(rest) == Reversed(yielded)
      decreases |rest|
    {
      undone := undone + [rest[|rest| - 1]];
      rest := rest[..|rest| - 1];
    }
  }

  /** The inverses the first `n` actions yielded. */
  function Yielded(steps: seq<Launch>, n: nat): (yielded: seq<Disposer>)
    requires n <= |steps| && forall i :: 0 <= i < n ==> steps[i].Some?
    ensures |yielded| == n && forall i :: 0 <= i < n ==> yielded[i] == steps[i].value
  {
    seq(n, i requires 0 <= i < n && steps[i].Some? => steps[i].value)
  }

  /** How many actions landed: each launched against a target not yet stale, up to the first failure or staleness. */
  ghost predicate LandedExactly(steps: seq<Launch>, staleBefore: nat -> bool, staleAfter: nat -> bool, n: nat) {
    && n <= |steps|
    && (forall i :: 0 <= i < n ==> steps[i].Some? && !staleBefore(i))
    && (forall i :: 0 <= i < n - 1 ==> !staleAfter(i))
    && (n < |steps| ==> staleBefore(n) || steps[n].None? || (n > 0 && staleAfter(n - 1)))
  }

  /**
   * How a forward effect ends: installed with the inverse of every action, or nothing installed and exactly
   * the inverses of the actions that landed run, last first; failed only where an action itself failed.
   */
  ghost predicate AdvancedTo(steps: seq<Launch>, staleBefore: nat -> bool, staleAfter: nat -> bool, end: End,
                             landed: nat) {
    && LandedExactly(steps, staleBefore, staleAfter, landed)
    && (end.Installed? <==> landed == |steps| && (landed == 0 || !staleAfter(landed - 1)))
    && (end.Installed? ==> end.inverses == Yielded(steps, landed))
    && (!end.Installed? ==> end.unwound == Reversed(Yielded(steps, landed)))
    && (end.Failed? <==>
          landed < |steps| && !(landed > 0 && staleAfter(landed - 1)) && !staleBefore(landed) && steps[landed].None?)
  }

  /**
   * Drives a stepwise forward effect: installed with every action's inverse, or nothing installed and
   * exactly the inverses of the actions that landed run, last first. A launched action always lands.
   */
  method Advance(steps: seq<Launch>, staleBefore: nat -> bool, staleAfter: nat -> bool)
      returns (end: End, ghost landed: nat)
    ensures AdvancedTo(steps, staleBefore, staleAfter, end, landed)
  {
    hide Reversed;
    var yielded: seq<Disposer> := [];
    for i := 0 to |steps|
      invariant (forall k :: 0 <= k < i ==> steps[k].Some? && !staleBefore(k) && !staleAfter(k))
                && yielded == Yielded(steps, i)
    {
      if staleBefore(i) {
        var undone := Unwind(yielded);
        return Diverted(undone), i;
      }
      if steps[i].None? {
        var undone := Unwind(yielded);
        return End.Failed(undone), i;
      }
      yielded := yielded + [steps[i].value];
      assert yielded == Yielded(steps, i + 1);
      if staleAfter(i) {
        var undone := Unwind(yielded);
        return Diverted(undone), i + 1;
      }
    }
    return Installed(yielded), |steps|;
  }

  /**
   * A plain effect ends as a stepwise one of its single action does, launched whatever the target, its
   * staleness read once the action landed.
   */
  method AdvancePlain(action: Launch, stale: bool) returns (end: End)
    ensures AdvancedTo([action], i => false, i => stale, end, if action.Some? then 1 else 0)
  {
    if action.None? { return End.Failed([]); }
    if stale {
      var undone := Unwind([action.value]);
      assert undone == [action.value];
      return Diverted(undone);
    }
    return Installed([action.value]);
  }

  /** Replays installed inverses, last yield first, stopping at the first that does not end well. */
  method Discharge(inverses: seq<Disposer>, ends: seq<Outcome>) returns (clean: bool, ran: seq<Disposer>)
    requires |ends| == |inverses|
    ensures ran <= Reversed(inverses)
    ensures clean <==> forall i :: 0 <= i < |ends| ==> ends[i] == Done
    ensures clean ==> ran == Reversed(inverses)
    ensures !clean ==> |ran| > 0 && ends[|ran| - 1] != Done && forall i :: 0 <= i < |ran| - 1 ==> ends[i] == Done
  {
    ran := [];
    var rest := inverses;
    while rest != []
      invariant ran + Reversed(rest) == Reversed(inverses) && |ran| + |rest| == |inverses|
      invariant forall i :: 0 <= i < |ran| ==> ends[i] == Done
      decreases |rest|
    {
      ran := ran + [rest[|rest| - 1]];
      rest := rest[..|rest| - 1];
      if ends[|ran| - 1] != Done { return false, ran; }
    }
    clean := true;
  }

  /**
   * Whatever the effect, going forward and then back touches the same actions: an installed effect whose
   * inverses all end well, or one that was not installed, leaves every landed action undone, last first.
   */
  method ForwardThenBack(steps: seq<Launch>, staleBefore: nat -> bool, staleAfter: nat -> bool, ends: seq<Outcome>)
      returns (undone: seq<Disposer>, ghost landed: nat)
    requires |ends| == |steps| && forall i :: 0 <= i < |ends| ==> ends[i] == Done
    ensures LandedExactly(steps, staleBefore, staleAfter, landed)
    ensures undone == Reversed(Yielded(steps, landed))
  {
    var end;
    end, landed := Advance(steps, staleBefore, staleAfter);
    if end.Installed? {
      var clean;
      clean, undone := Discharge(end.inverses, ends);
    } else {
      undone := end.unwound;
    }
  }
}
