// The one shared cell of a fiber: every target write, the stamped rest bit, the
// launch of an incarnation, and its fault. Each operation is one critical section.

module Steering {
  import opened Profiles
  import opened Planning

  datatype Inner = Inner(
    desired: Desired, committed: Committed, inFlight: Option<Aim>, resting: bool, moved: nat, launches: nat)

  function Initial(epoch: Option<nat>): Inner {
    Inner(Desired(Aim(epoch, 0), InitialLoad, false, false, false), FRESH, None, false, 0, 0)
  }

  /** The target moved: rest lowers with the write. */
  function Stirred(i: Inner, desired: Desired): Inner { i.(desired := desired, resting := false, moved := i.moved + 1) }

  function EpochSet(i: Inner, epoch: Option<nat>): Inner {
    if i.desired.aim.epoch == epoch then i
    else Stirred(i, i.desired.(aim := i.desired.aim.(epoch := epoch), cause := DependencyChanged))
  }

  function Restarted(i: Inner, cause: Cause): Inner {
    Stirred(i, i.desired.(aim := i.desired.aim.(revision := i.desired.aim.revision + 1), cause := cause))
  }

  function Disposing(i: Inner): Inner { if i.desired.disposing then i else Stirred(i, i.desired.(disposing := true)) }

  function Suspending(i: Inner): Inner {
    if i.desired.suspending then i else Stirred(i, i.desired.(suspending := true))
  }

  /** Whether a fault named by `incarnation` acts. */
  predicate FaultActs(i: Inner, incarnation: nat) {
    i.launches == incarnation && !i.desired.faulted && i.committed.state != Disposed
  }

  function Faulted(i: Inner, incarnation: nat): Inner {
    if FaultActs(i, incarnation) then Stirred(i, i.desired.(faulted := true)) else i
  }

  function Launched(i: Inner, aim: Aim): Inner {
    i.(inFlight := Some(aim), launches := i.launches + 1, desired := i.desired.(faulted := false))
  }

  function RestSettled(i: Inner, observed: nat): Inner { if i.moved == observed then i.(resting := true) else i }

  predicate IsStale(i: Inner) {
    i.inFlight.Some? && (i.desired.disposing || i.desired.suspending || i.inFlight.value != i.desired.aim)
  }

  /** What the fiber owes, as a reader is told it. */
  function OwedNow(i: Inner): Option<Owed> { if i.resting then None else OwedBy(i.committed, i.desired) }

  class SteeringCell {
    var desired: Desired
    var committed: Committed
    var inFlight: Option<Aim>
    var resting: bool
    var moved: nat
    var launches: nat

    function Value(): Inner
      reads this
    {
      Inner(desired, committed, inFlight, resting, moved, launches)
    }

    constructor (epoch: Option<nat>)
      ensures Value() == Initial(epoch)
    {
      desired := Desired(Aim(epoch, 0), InitialLoad, false, false, false);
      committed, inFlight := FRESH, None;
      resting, moved, launches := false, 0, 0;
    }

    method Stir()
      modifies this
      ensures Value() == Stirred(old(Value()), old(desired))
    {
      resting := false;
      moved := moved + 1;
    }

    /** The whole gap, stamped. */
    method Observed() returns (c: Committed, d: Desired, stamp: nat)
      ensures c == committed && d == desired && stamp == moved
    {
      return committed, desired, moved;
    }

    method Commit(landed: Committed)
      modifies this
      ensures Value() == old(Value()).(committed := landed)
    {
      committed := landed;
    }

    method SettleRest(observed: nat) returns (rests: bool)
      modifies this
      ensures Value() == RestSettled(old(Value()), observed) && (rests <==> old(moved) == observed)
    {
      if moved != observed { return false; }
      resting := true;
      return true;
    }

    method SetEpoch(epoch: Option<nat>) returns (changed: bool)
      modifies this
      ensures Value() == EpochSet(old(Value()), epoch) && (changed <==> old(desired).aim.epoch != epoch)
    {
      if desired.aim.epoch == epoch { return false; }
      desired := desired.(aim := desired.aim.(epoch := epoch), cause := DependencyChanged);
      Stir();
      return true;
    }

    method Restart(cause: Cause)
      modifies this
      ensures Value() == Restarted(old(Value()), cause)
    {
      desired := desired.(aim := desired.aim.(revision := desired.aim.revision + 1), cause := cause);
      Stir();
    }

    method Dispose()
      modifies this
      ensures Value() == Disposing(old(Value()))
    {
      if !desired.disposing {
        desired := desired.(disposing := true);
        Stir();
      }
    }

    method Suspend()
      modifies this
      ensures Value() == Suspending(old(Value()))
    {
      if !desired.suspending {
        desired := desired.(suspending := true);
        Stir();
      }
    }

    /** A new incarnation; the source asserts that none is in flight. */
    method Launch(aim: Aim)
      requires inFlight.None?
      modifies this
      ensures Value() == Launched(old(Value()), aim)
    {
      inFlight := Some(aim);
      launches := launches + 1;
      desired := desired.(faulted := false);
    }

    /** A stale incarnation's fault changes nothing. */
    method Fault(incarnation: nat) returns (acted: bool)
      modifies this
      ensures Value() == Faulted(old(Value()), incarnation) && (acted <==> FaultActs(old(Value()), incarnation))
      ensures incarnation != old(launches) ==> !acted && Value() == old(Value())
    {
      if launches != incarnation || desired.faulted || committed.state == Disposed { return false; }
      desired := desired.(faulted := true);
      Stir();
      return true;
    }

    method Land()
      modifies this
      ensures Value() == old(Value()).(inFlight := None)
    {
      inFlight := None;
    }

    /** Folds one observed input in and reports whether the activation in flight went stale with it. */
    method Absorb(epoch: Option<nat>) returns (stale: bool)
      modifies this
      ensures Value() == EpochSet(old(Value()), epoch) && (stale <==> IsStale(Value()))
    {
      var changed := SetEpoch(epoch);
      stale := inFlight.Some? && (desired.disposing || desired.suspending || inFlight.value != desired.aim);
    }

    method ReadOwed() returns (owed: Option<Owed>)
      ensures owed == OwedNow(Value())
    {
      owed := if resting then None else OwedBy(committed, desired);
    }
  }
}
