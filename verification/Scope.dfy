// An effect scope and its teardowns: replay and suspension, either of which may
// be dropped mid-flight and taken up again, drains, and detached subtrees.

module Scope {
  import opened Profiles
  import opened EffectTree
  import opened EffectImage
  import opened EffectSearch

  datatype Outcome = Done | Failed | Panicked | Cancelled(completed: nat, remaining: nat) | Interrupted

  /** What an effect is known by, in a report or in the tree. */
  datatype Head = Head(id: EffectId, text: string)

  datatype Line = Line(head: Head, outcome: Outcome)

  function HeadOf(record: Record): Head { Head(record.id, record.text) }

  function HeadsOf(records: seq<Record>): (heads: seq<Head>)
    ensures |heads| == |records| && forall i :: 0 <= i < |records| ==> heads[i] == HeadOf(records[i])
  {
    seq(|records|, i requires 0 <= i < |records| => HeadOf(records[i]))
  }

  /** The heads of a report's lines. */
  function Logged(lines: seq<Line>): seq<Head> { seq(|lines|, i requires 0 <= i < |lines| => lines[i].head) }

  /** One inverse that was started. */
  datatype Started = Started(id: EffectId, disposer: Disposer)

  /**
   * How each withdrawal of a teardown ends, whose unrun inverse panics as it is dropped, and where the future
   * itself is dropped.
   */
  datatype World = World(ends: nat -> Outcome, panics: nat -> bool, dropped: Option<nat>)

  /** The first `n` lines of a teardown, the one in flight as it is dropped being interrupted. */
  function LinesOf(records: seq<Record>, world: World, suspending: bool, n: nat): (lines: seq<Line>)
    requires n <= |records|
    ensures |lines| == n
    ensures forall i :: 0 <= i < n ==> lines[i].head == HeadOf(records[i])
  {
    seq(n, i requires 0 <= i < n =>
      Line(HeadOf(records[i]),
           if suspending && records[i].suspend.Some? && world.panics(i) then Panicked
           else if world.dropped == Some(i) then Interrupted else world.ends(i)))
  }

  /** What a teardown runs for one record: its suspend path when suspending and it has one, else its inverse. */
  function Released(record: Record, suspending: bool): Disposer {
    if suspending && record.suspend.Some? then record.suspend.value else record.disposer
  }

  /** The disposers the first `n` withdrawals start; an inverse that panics as it is dropped stops its effect's own. */
  function StartedBy(records: seq<Record>, world: World, suspending: bool, n: nat): seq<Started>
    requires n <= |records|
  {
    if n == 0 then [] else
      StartedBy(records, world, suspending, n - 1)
      + if suspending && records[n - 1].suspend.Some? && world.panics(n - 1) then []
        else [Started(records[n - 1].id, Released(records[n - 1], suspending))]
  }

  /** The future is dropped while this record's withdrawal is in flight. */
  predicate DroppedAt(records: seq<Record>, world: World, suspending: bool, i: nat)
    requires i < |records|
  {
    world.dropped == Some(i) && !(suspending && records[i].suspend.Some? && world.panics(i))
  }

  /** The teardown runs to its end. */
  predicate Torn(records: seq<Record>, world: World, suspending: bool) {
    !(world.dropped.Some? && world.dropped.value < |records|
      && DroppedAt(records, world, suspending, world.dropped.value))
  }

  /** How far a teardown gets: to the record in flight as it is dropped, or to the end. */
  function Reached(records: seq<Record>, world: World, suspending: bool): (n: nat)
    ensures n <= |records|
  {
    if Torn(records, world, suspending) then |records| else world.dropped.value + 1
  }

  lemma LinesMore(records: seq<Record>, world: World, suspending: bool, n: nat)
    requires n < |records|
    ensures LinesOf(records, world, suspending, n) + LinesOf(records, world, suspending, n + 1)[n..] ==
              LinesOf(records, world, suspending, n + 1)
    ensures LinesOf(records, world, suspending, n + 1) == LinesOf(records, world, suspending, n)
      + [Line(HeadOf(records[n]),
              if suspending && records[n].suspend.Some? && world.panics(n) then Panicked
              else if world.dropped == Some(n) then Interrupted else world.ends(n))]
  {}

  /** One turn of a teardown: nothing was left, a record was withdrawn, or the future went with one in flight. */
  datatype Advance = Empty | Withdrew | Dropping

  class EffectScope {
    var roots: Forest
    var withdrawn: seq<Line>
    var replayed: bool
    ghost var started: seq<Started>

    constructor ()
      ensures roots == [] && withdrawn == [] && !replayed && started == []
    {
      roots, withdrawn, replayed := [], [], false;
      started := [];
    }

    /** Registers an effect at the top: it will be the first withdrawn. A replayed scope refuses. */
    method Register(id: EffectId, text: string, undo: Disposer, drain: Option<Disposer>, suspend: Option<Disposer>)
        returns (registered: bool)
      modifies this
      ensures registered <==> !old(replayed)
      ensures withdrawn == old(withdrawn) && replayed == old(replayed) && started == old(started)
      ensures !registered ==> roots == old(roots)
      ensures registered ==> Teardown(roots) == [Record(id, text, undo, drain, suspend, [])] + Teardown(old(roots))
    {
      if replayed { return false; }
      var record := Record(id, text, undo, drain, suspend, []);
      TeardownJoin(roots, [record]);
      TeardownOne(record);
      roots := roots + [record];
      registered := true;
    }

    /** Registers an effect under a live one: it is withdrawn just ahead of its parent's own subtree. */
    method RegisterChild(parent: EffectId, id: EffectId, text: string, undo: Disposer)
        returns (registered: bool, ghost a: seq<Record>, ghost own: seq<Record>, ghost b: seq<Record>)
      modifies this
      ensures registered <==> !old(replayed) && parent in Ids(old(roots))
      ensures withdrawn == old(withdrawn) && replayed == old(replayed) && started == old(started)
      ensures !registered ==> roots == old(roots)
      ensures registered ==> && own != [] && own[|own| - 1].id == parent
                             && Teardown(old(roots)) == a + own + b
                             && Teardown(roots) == a + [Record(id, text, undo, None, None, [])] + own + b
    {
      a, own, b := [], [], [];
      if replayed { return false, a, own, b; }
      var rest: Forest;
      registered, rest, a, own, b := Nest(roots, parent, Record(id, text, undo, None, None, []));
      if registered { roots := rest; }
    }

    method Tree() returns (images: seq<Descriptor>)
      ensures images == Images(roots)
    {
      images := Describe(roots);
    }

    /**
     * Withdraws every live effect, last registered first. Dropped mid-flight it answers nothing: what it
     * withdrew stays noted, the one in flight interrupted, and everything it never reached stays live.
     */
    method Replay(world: World) returns (report: Option<seq<Line>>)
      modifies this
      ensures replayed
      ensures var order := Teardown(old(roots)); var n := Reached(order, world, false);
              var done := Torn(order, world, false);
              && Teardown(roots) == order[n..]
              && started == old(started) + StartedBy(order, world, false, n)
              && (done ==>
                    roots == [] && withdrawn == [] && report == Some(old(withdrawn) + LinesOf(order, world, false, n)))
              && (!done ==> report == None && withdrawn == old(withdrawn) + LinesOf(order, world, false, n))
    {
      report := TearDown(world, false);
    }

    /** Suspends every live effect: a suspendable one runs its suspend path, every other its inverse. */
    method Suspend(world: World) returns (report: Option<seq<Line>>)
      modifies this
      ensures replayed
      ensures var order := Teardown(old(roots)); var n := Reached(order, world, true);
              var done := Torn(order, world, true);
              && Teardown(roots) == order[n..]
              && started == old(started) + StartedBy(order, world, true, n)
              && (done ==>
                    roots == [] && withdrawn == [] && report == Some(old(withdrawn) + LinesOf(order, world, true, n)))
              && (!done ==> report == None && withdrawn == old(withdrawn) + LinesOf(order, world, true, n))
    {
      report := TearDown(world, true);
    }

    /** The loop the two teardowns share. */
    method TearDown(world: World, suspending: bool) returns (report: Option<seq<Line>>)
      modifies this
      ensures replayed
      ensures var order := Teardown(old(roots)); var n := Reached(order, world, suspending);
              && Teardown(roots) == order[n..]
              && started == old(started) + StartedBy(order, world, suspending, n)
              && (Torn(order, world, suspending) ==>
                    roots == [] && withdrawn == []
                    && report == Some(old(withdrawn) + LinesOf(order, world, suspending, n)))
              && (!Torn(order, world, suspending) ==>
                    report == None && withdrawn == old(withdrawn) + LinesOf(order, world, suspending, n))
    {
      hide Teardown, LinesOf, StartedBy;
      NoLines(Teardown(roots), world, suspending);
      replayed := true;
      ghost var order := Teardown(roots);
      var n, advanced := 0, Withdrew;
      while advanced == Withdrew
        invariant replayed && n <= |order|
        invariant withdrawn == old(withdrawn) + LinesOf(order, world, suspending, n)
        invariant started == old(started) + StartedBy(order, world, suspending, n)
        invariant Teardown(roots) == order[n..]
        invariant advanced == Withdrew ==> world.dropped.Some? && world.dropped.value < n ==>
                    !DroppedAt(order, world, suspending, world.dropped.value)
        invariant advanced == Dropping ==> n > 0 && DroppedAt(order, world, suspending, n - 1)
        invariant advanced == Empty ==> roots == [] && n == |order| && Torn(order, world, suspending)
        decreases |order| - n, if advanced == Withdrew then 1 else 0
      {
        ghost var lines := LinesOf(order, world, suspending, n);
        if n < |order| { LinesMore(order, world, suspending, n); }
        advanced := WithdrawNext(world, suspending, order, n);
        if advanced != Empty { n := n + 1; }
      }
      if advanced == Dropping { return None; }
      report := Some(withdrawn);
      withdrawn := [];
    }

    /** Takes the next record and withdraws it. */
    method WithdrawNext(world: World, suspending: bool, ghost order: seq<Record>, n: nat) returns (advanced: Advance)
      requires n <= |order| && Teardown(roots) == order[n..]
      modifies this
      ensures replayed == old(replayed)
      ensures advanced == Empty <==> n == |order|
      ensures advanced == Empty ==> roots == old(roots) == [] && withdrawn == old(withdrawn) && started == old(started)
      ensures advanced != Empty ==>
                && (advanced == Dropping <==> DroppedAt(order, world, suspending, n))
                && Teardown(roots) == order[n + 1..]
                && old(withdrawn) + LinesOf(order, world, suspending, n + 1)[n..] == withdrawn
                && started == old(started)
                   + StartedBy(order, world, suspending, n + 1)[|StartedBy(order, world, suspending, n)|..]
                && StartedBy(order, world, suspending, n) <= StartedBy(order, world, suspending, n + 1)
    {
      hide Teardown, LinesOf;
      TornDown(roots);
      var next, rest := TakeNext(roots);
      if next.None? { return Empty; }
      var record := next.value;
      assert record == order[n] && order[n + 1..] == Teardown(rest);
      LinesMore(order, world, suspending, n);
      roots := rest;
      if suspending && record.suspend.Some? && world.panics(n) {
        withdrawn := withdrawn + [Line(HeadOf(record), Panicked)];
        return Withdrew;
      }
      started := started + [Started(record.id, Released(record, suspending))];
      if world.dropped == Some(n) {
        withdrawn := withdrawn + [Line(HeadOf(record), Interrupted)];
        return Dropping;
      }
      withdrawn := withdrawn + [Line(HeadOf(record), world.ends(n))];
      return Withdrew;
    }

    /**
     * Runs every pending drain phase, in teardown order, ahead of any inverse; only what failed is noted.
     * Dropped mid-drain, the phase in flight is noted nowhere and those after it never run, but every
     * effect stays in its place with its inverse, and no phase is left to run twice.
     */
    method Drain(ends: nat -> Outcome, dropped: Option<nat>) returns (ghost ran: seq<Phase>)
      modifies this
      ensures replayed == old(replayed) && started == old(started)
      ensures Teardown(roots) == Cleared(Teardown(old(roots))) && Phases(Teardown(roots)) == []
      ensures var phases := Phases(Teardown(old(roots))); var n := PhasesEnded(phases, dropped);
              && ran == phases[..if n < |phases| then n + 1 else n]
              && withdrawn == old(withdrawn) + Unclean(phases, ends, n)
    {
      hide Teardown, Phases, Drained;
      var phases, rest := Drains(roots);
      DrainOnce(roots);
      roots, ran := rest, [];
      for i := 0 to |phases|
        invariant replayed == old(replayed) && started == old(started) && roots == rest
        invariant withdrawn == old(withdrawn) + Unclean(phases, ends, i) && ran == phases[..i]
        invariant dropped.Some? ==> dropped.value >= i
      {
        assert phases[..i + 1] == phases[..i] + [phases[i]];
        ran := ran + [phases[i]];
        if dropped == Some(i) { return; }
        var outcome := ends(i);
        if outcome != Done { withdrawn := withdrawn + [Line(Head(phases[i].id, phases[i].text), outcome)]; }
      }
    }

    /** Detaches one live effect with its whole subtree, its records in teardown order. */
    method Detach(id: EffectId) returns (detached: Option<seq<Record>>, ghost a: seq<Record>, ghost b: seq<Record>)
      modifies this
      ensures detached.Some? <==> id in Ids(old(roots))
      ensures withdrawn == old(withdrawn) && replayed == old(replayed) && started == old(started)
      ensures detached.None? ==> roots == old(roots)
      ensures detached.Some? ==> && detached.value != [] && detached.value[|detached.value| - 1].id == id
                                 && Teardown(old(roots)) == a + detached.value + b && Teardown(roots) == a + b
    {
      var taken, rest;
      taken, rest, a, b := Take(roots, id);
      if taken.None? { return None, a, b; }
      roots := rest;
      TeardownOne(taken.value);
      var records := Flatten([taken.value]);
      detached := Some(records);
    }
  }

  /** Withdraws detached records in place: one that yields was started, and is reported interrupted. */
  method WithdrawNow(records: seq<Record>, ends: nat -> Outcome, waits: nat -> bool) returns (lines: seq<Line>)
    ensures Logged(lines) == HeadsOf(records)
    ensures forall i :: 0 <= i < |records| ==> lines[i].outcome == if waits(i) then Interrupted else ends(i)
  {
    lines := [];
    for i := 0 to |records|
      invariant |lines| == i && forall k :: 0 <= k < i ==> lines[k].head == HeadOf(records[k])
      invariant forall k :: 0 <= k < i ==> lines[k].outcome == if waits(k) then Interrupted else ends(k)
    {
      lines := lines + [Line(HeadOf(records[i]), if waits(i) then Interrupted else ends(i))];
    }
  }

  /** How many drain phases end: those before the one in flight as the drain is dropped, or all. */
  function PhasesEnded(phases: seq<Phase>, dropped: Option<nat>): (n: nat)
    ensures n <= |phases|
  {
    if dropped.Some? && dropped.value < |phases| then dropped.value else |phases|
  }

  /** The drain phases that did not end cleanly, as lines. */
  function Unclean(phases: seq<Phase>, ends: nat -> Outcome, n: nat): seq<Line>
    requires n <= |phases|
  {
    if n == 0 then [] else
      Unclean(phases, ends, n - 1)
      + if ends(n - 1) == Done then [] else [Line(Head(phases[n - 1].id, phases[n - 1].text), ends(n - 1))]
  }

  lemma NoLines(records: seq<Record>, world: World, suspending: bool)
    ensures LinesOf(records, world, suspending, 0) == [] && StartedBy(records, world, suspending, 0) == []
  {}

  lemma TornDown(roots: Forest)
    ensures roots == [] <==> Teardown(roots) == []
  {}

  // ----- nothing is lost

  lemma HeadsOfLines(records: seq<Record>, world: World, suspending: bool, n: nat)
    requires n <= |records|
    ensures Logged(LinesOf(records, world, suspending, n)) == HeadsOf(records[..n])
  {}

  /**
   * Conservation: a dropped teardown leaves what it noted and what is still owed the original order,
   * and one that ends reports exactly that order.
   */
  lemma TeardownConserves(noted: seq<Line>, order: seq<Record>, world: World, suspending: bool)
    ensures var n := Reached(order, world, suspending);
            Logged(noted + LinesOf(order, world, suspending, n)) + HeadsOf(order[n..]) == Logged(noted) + HeadsOf(order)
    ensures Torn(order, world, suspending) ==> Reached(order, world, suspending) == |order|
  {
    var n := Reached(order, world, suspending);
    hide Torn, LinesOf, Logged, HeadsOf;
    HeadsOfLines(order, world, suspending, n);
    HeadsSplit(order, n);
    LoggedJoin(noted, LinesOf(order, world, suspending, n));
    assert Logged(noted) + HeadsOf(order[..n]) + HeadsOf(order[n..]) ==
           Logged(noted) + (HeadsOf(order[..n]) + HeadsOf(order[n..]));
  }

  lemma HeadsSplit(records: seq<Record>, n: nat)
    requires n <= |records|
    ensures HeadsOf(records) == HeadsOf(records[..n]) + HeadsOf(records[n..])
  {}

  lemma LoggedJoin(a: seq<Line>, b: seq<Line>)
    ensures Logged(a + b) == Logged(a) + Logged(b)
  {}

  function Interruptions(lines: seq<Line>): nat {
    if lines == [] then 0 else
      Interruptions(lines[..|lines| - 1]) + if lines[|lines| - 1].outcome == Interrupted then 1 else 0
  }

  /** A teardown whose own inverses never end interrupted adds one interrupted line when dropped, and none when not. */
  lemma {:induction false} OneInterruption(order: seq<Record>, world: World, suspending: bool, n: nat)
    requires n <= Reached(order, world, suspending) && forall i :: world.ends(i) != Interrupted
    ensures Interruptions(LinesOf(order, world, suspending, n)) ==
              if !Torn(order, world, suspending) && n == Reached(order, world, suspending) then 1 else 0
  {
    if n > 0 {
      OneInterruption(order, world, suspending, n - 1);
      var lines := LinesOf(order, world, suspending, n);
      assert lines[..n - 1] == LinesOf(order, world, suspending, n - 1);
    }
  }

  lemma {:induction false} InterruptionsJoin(a: seq<Line>, b: seq<Line>)
    ensures Interruptions(a + b) == Interruptions(a) + Interruptions(b)
  {
    if b == [] {
      assert a + b == a;
    } else {
      assert (a + b)[..|a + b| - 1] == a + b[..|b| - 1];
      InterruptionsJoin(a, b[..|b| - 1]);
    }
  }

  /**
   * A scope's side of its teardowns: what is noted, what is owed in teardown order, and the disposers started
   * so far.
   */
  datatype Standing = Standing(noted: seq<Line>, owed: seq<Record>, started: seq<Started>)

  /** The scope after teardowns that were each dropped mid-flight, replays and suspensions alike. */
  function AfterDrops(start: Standing, drops: seq<(World, bool)>): Standing {
    if drops == [] then start else
      var before := AfterDrops(start, drops[..|drops| - 1]);
      var (world, suspending) := drops[|drops| - 1];
      var n := Reached(before.owed, world, suspending);
      Standing(before.noted + LinesOf(before.owed, world, suspending, n), before.owed[n..],
               before.started + StartedBy(before.owed, world, suspending, n))
  }

  /**
   * Any number of dropped teardowns loses nothing: what is noted, followed by what is owed, is what it was
   * at the start, and at most one effect a drop is noted as interrupted. The report of a teardown that then
   * runs to its end names every effect once, in that same order.
   */
  lemma {:induction false} DropsLoseNothing(start: Standing, drops: seq<(World, bool)>, last: World, suspending: bool)
    requires forall k, i :: 0 <= k < |drops| ==> drops[k].0.ends(i) != Interrupted
    requires Torn(AfterDrops(start, drops).owed, last, suspending)
    ensures var end := AfterDrops(start, drops);
            && Logged(end.noted) + HeadsOf(end.owed) == Logged(start.noted) + HeadsOf(start.owed)
            && Interruptions(end.noted) <= Interruptions(start.noted) + |drops|
            && Logged(end.noted + LinesOf(end.owed, last, suspending, |end.owed|)) ==
                 Logged(start.noted) + HeadsOf(start.owed)
  {
    DropsConserve(start, drops);
    var end := AfterDrops(start, drops);
    TeardownConserves(end.noted, end.owed, last, suspending);
    assert HeadsOf(end.owed[|end.owed|..]) == [];
  }

  lemma {:induction false} DropsConserve(start: Standing, drops: seq<(World, bool)>)
    requires forall k, i :: 0 <= k < |drops| ==> drops[k].0.ends(i) != Interrupted
    ensures var end := AfterDrops(start, drops);
            && Logged(end.noted) + HeadsOf(end.owed) == Logged(start.noted) + HeadsOf(start.owed)
            && Interruptions(end.noted) <= Interruptions(start.noted) + |drops|
  {
    if drops != [] {
      var d := |drops| - 1;
      DropsConserve(start, drops[..d]);
      var before := AfterDrops(start, drops[..d]);
      var (world, suspending) := drops[d];
      var n := Reached(before.owed, world, suspending);
      TeardownConserves(before.noted, before.owed, world, suspending);
      forall i ensures world.ends(i) != Interrupted { assert drops[d].0.ends(i) != Interrupted; }
      OneInterruption(before.owed, world, suspending, n);
      InterruptionsJoin(before.noted, LinesOf(before.owed, world, suspending, n));
    }
  }

  /**
   * A start of one of the `i`th record's disposers: its suspend path, in a suspending pass and when it has
   * one, else its inverse.
   */
  predicate IsStart(order: seq<Record>, suspending: bool, i: nat, start: Started) {
    i < |order| && start == Started(order[i].id, Released(order[i], suspending))
  }

  /** Every start is one of the first `n` records', in a pass of either kind. */
  ghost predicate Starts(started: seq<Started>, order: seq<Record>, from: nat, n: nat) {
    forall start :: start in started ==>
      exists i: nat, suspending :: from <= i < n && IsStart(order, suspending, i, start)
  }

  predicate NoneTwice(started: seq<Started>) {
    forall j, k :: 0 <= j < k < |started| ==> started[j].id != started[k].id
  }

  predicate Distinct(order: seq<Record>) { forall i, j :: 0 <= i < j < |order| ==> order[i].id != order[j].id }

  /** Every line whose effect did not panic names an effect one of whose disposers was started. */
  ghost predicate AllStarted(lines: seq<Line>, started: seq<Started>) {
    forall line :: line in lines && line.outcome != Panicked ==>
      exists start :: start in started && start.id == line.head.id
  }

  lemma StartsJoin(a: seq<Started>, b: seq<Started>, order: seq<Record>, n: nat, m: nat)
    requires Distinct(order) && n <= m
    requires Starts(a, order, 0, n) && Starts(b, order, n, m) && NoneTwice(a) && NoneTwice(b)
    ensures Starts(a + b, order, 0, m) && NoneTwice(a + b)
  {
    forall x, y | x in a && y in b ensures x.id != y.id {
      var i: nat, p :| i < n && IsStart(order, p, i, x);
      var j: nat, q :| n <= j < m && IsStart(order, q, j, y);
    }
    forall j, k | 0 <= j < k < |a + b| ensures (a + b)[j].id != (a + b)[k].id {
      if j < |a| <= k { assert a[j] in a && b[k - |a|] in b; }
    }
    forall start | start in a + b
      ensures exists i: nat, suspending :: 0 <= i < m && IsStart(order, suspending, i, start)
    {
      if start in a {
        var i: nat, p :| i < n && IsStart(order, p, i, start);
      } else {
        var j: nat, q :| n <= j < m && IsStart(order, q, j, start);
      }
    }
  }

  /** One pass over the records from `from` on starts at most one disposer of each. */
  lemma {:induction false} PassStarts(order: seq<Record>, from: nat, world: World, suspending: bool, n: nat)
    requires Distinct(order) && from + n <= |order|
    ensures var started := StartedBy(order[from..], world, suspending, n);
            Starts(started, order, from, from + n) && NoneTwice(started)
  {
    if n > 0 {
      var owed := order[from..];
      PassStarts(order, from, world, suspending, n - 1);
      var before, started := StartedBy(owed, world, suspending, n - 1), StartedBy(owed, world, suspending, n);
      forall start | start in before ensures start.id != owed[n - 1].id {
        var i: nat, p :| from <= i < from + n - 1 && IsStart(order, p, i, start);
      }
      forall start | start in started
        ensures exists i: nat, p :: from <= i < from + n && IsStart(order, p, i, start)
      {
        if start in before {
          var i: nat, p :| from <= i < from + n - 1 && IsStart(order, p, i, start);
        } else {
          assert IsStart(order, suspending, from + n - 1, start);
        }
      }
    }
  }

  lemma {:induction false} PassLines(owed: seq<Record>, world: World, suspending: bool, n: nat)
    requires n <= |owed|
    ensures AllStarted(LinesOf(owed, world, suspending, n), StartedBy(owed, world, suspending, n))
  {
    if n > 0 {
      hide AllStarted, LinesOf;
      PassLines(owed, world, suspending, n - 1);
      var last, more := LastLine(owed, world, suspending, n);
      AllStartedJoin(LinesOf(owed, world, suspending, n - 1), StartedBy(owed, world, suspending, n - 1), last, more);
    }
  }

  lemma LastLine(owed: seq<Record>, world: World, suspending: bool, n: nat)
      returns (last: seq<Line>, more: seq<Started>)
    requires 0 < n <= |owed|
    ensures LinesOf(owed, world, suspending, n) == LinesOf(owed, world, suspending, n - 1) + last
    ensures StartedBy(owed, world, suspending, n) == StartedBy(owed, world, suspending, n - 1) + more
    ensures AllStarted(last, more)
  {
    hide LinesOf;
    LinesMore(owed, world, suspending, n - 1);
    last := [LinesOf(owed, world, suspending, n)[n - 1]];
    more := if suspending && owed[n - 1].suspend.Some? && world.panics(n - 1) then []
            else [Started(owed[n - 1].id, Released(owed[n - 1], suspending))];
    assert more != [] ==> more[0] in more;
  }

  lemma AllStartedJoin(a: seq<Line>, s: seq<Started>, b: seq<Line>, t: seq<Started>)
    requires AllStarted(a, s) && AllStarted(b, t)
    ensures AllStarted(a + b, s + t)
  {
    forall line | line in a + b && line.outcome != Panicked
      ensures exists start :: start in s + t && start.id == line.head.id
    {
      if line in a {
        var start :| start in s && start.id == line.head.id;
        assert start in s + t;
      } else {
        var start :| start in t && start.id == line.head.id;
        assert start in s + t;
      }
    }
  }

  /** A scope none of whose teardowns has begun. */
  lemma NothingStarted(order: seq<Record>)
    ensures Starts([], order, 0, 0) && NoneTwice([]) && AllStarted([], [])
  {}

  predicate Untouched(start: Standing) { start.noted == [] && start.started == [] }

  lemma {:induction false} DropsStartOnce(start: Standing, drops: seq<(World, bool)>)
    requires Untouched(start) && Distinct(start.owed)
    ensures var end := AfterDrops(start, drops);
            && |end.owed| <= |start.owed| && end.owed == start.owed[|start.owed| - |end.owed|..]
            && Starts(end.started, start.owed, 0, |start.owed| - |end.owed|) && NoneTwice(end.started)
            && AllStarted(end.noted, end.started)
  {
    hide Starts, NoneTwice, AllStarted, LinesOf, StartedBy, Distinct;
    if drops == [] {
      NothingStarted(start.owed);
    } else {
      DropsStartOnce(start, drops[..|drops| - 1]);
      var before := AfterDrops(start, drops[..|drops| - 1]);
      var (world, suspending) := drops[|drops| - 1];
      OnePass(start, before, world, suspending, Reached(before.owed, world, suspending));
    }
  }

  /** One more pass, of either kind and however far it gets, over what is still owed. */
  lemma OnePass(start: Standing, before: Standing, world: World, suspending: bool, n: nat)
    requires Distinct(start.owed) && n <= |before.owed| <= |start.owed|
    requires before.owed == start.owed[|start.owed| - |before.owed|..]
    requires Starts(before.started, start.owed, 0, |start.owed| - |before.owed|) && NoneTwice(before.started)
    requires AllStarted(before.noted, before.started)
    ensures var started := before.started + StartedBy(before.owed, world, suspending, n);
            && before.owed[n..] == start.owed[|start.owed| - |before.owed[n..]|..]
            && Starts(started, start.owed, 0, |start.owed| - |before.owed[n..]|) && NoneTwice(started)
            && AllStarted(before.noted + LinesOf(before.owed, world, suspending, n), started)
  {
    hide Starts, NoneTwice, AllStarted, LinesOf, StartedBy;
    var from := |start.owed| - |before.owed|;
    PassStarts(start.owed, from, world, suspending, n);
    PassLines(before.owed, world, suspending, n);
    StartsJoin(before.started, StartedBy(before.owed, world, suspending, n), start.owed, from, from + n);
    AllStartedJoin(before.noted, before.started, LinesOf(before.owed, world, suspending, n),
                   StartedBy(before.owed, world, suspending, n));
  }

  /**
   * Over any number of dropped teardowns, replays and suspensions in any mix, and one of either kind that runs
   * to its end: no effect has two disposers started, its suspend path and its inverse counted together; each
   * start is of its effect's own suspend path or inverse; and every effect whose line is not a panic had one started.
   */
  lemma OneDisposerEach(start: Standing, drops: seq<(World, bool)>, last: World, suspending: bool)
    requires Untouched(start) && Distinct(start.owed)
    requires Torn(AfterDrops(start, drops).owed, last, suspending)
    ensures var end := AfterDrops(start, drops);
            var started := end.started + StartedBy(end.owed, last, suspending, |end.owed|);
            && NoneTwice(started) && Starts(started, start.owed, 0, |start.owed|)
            && AllStarted(end.noted + LinesOf(end.owed, last, suspending, |end.owed|), started)
  {
    hide Starts, NoneTwice, AllStarted, LinesOf, StartedBy, AfterDrops, Torn;
    DropsStartOnce(start, drops);
    var end := AfterDrops(start, drops);
    OnePass(start, end, last, suspending, |end.owed|);
  }
}
