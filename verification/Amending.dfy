// Two views of one truth: runtime-led amendments and disposals interleaving over
// the runtime, the committed document and the saved one, with every write able to
// fail. No reconcile is in flight beside them.

module Amending {
  import opened Profiles

  /** One entry as a view holds it. */
  datatype View = View(config: Config, disabled: bool)

  /**
   * One entry's runtime: its applied record, the config its fiber was last given, whether the fiber runs, a
   * recorded fault.
   */
  datatype Runtime = Runtime(spec: View, staged: Config, running: bool, fault: bool)

  type Views = map<EntryId, View>

  datatype Kind = Amend(config: Config) | Dispose

  datatype Answer = Accepted | AcceptedLate | Rejected | Diverged

  datatype Phase =
    | Staging                               // about to validate and snapshot
    | Offering                              // about to offer the change to the fiber
    | AwaitingPermit
    | Saving(doc: Views, file: Views, retried: bool)
    | Saved(doc: Views)                     // written, about to commit
    | Unsaved(doc: Views)                   // a disposal the store refused twice
    | Reloading                             // committed, about to reload the fiber
    | Undoing                               // the write failed, about to withdraw the staged config
    | Recording                             // about to record a divergence
    | Ended(answer: Answer)

  /** One operation: what it found when it was validated, and whether it holds a live fiber. */
  datatype Task = Task(entry: EntryId, kind: Kind, found: View, held: bool, phase: Phase)

  /** `accepted` is history: the last view of each entry an operation committed. */
  datatype System = System(
    runtime: map<EntryId, Runtime>, committed: Views, saved: Views,
    engaged: set<EntryId>, permit: Option<nat>, tasks: map<nat, Task>, accepted: Views)

  datatype Action =
    | Start(task: nat, entry: EntryId, kind: Kind)
    | Step(task: nat, ok: bool)

  /** What an operation makes of a view. */
  function Changed(kind: Kind, view: View): View {
    match kind
    case Amend(config) => view.(config := config)
    case Dispose => view.(disabled := true)
  }

  predicate Ends(phase: Phase) { phase.Ended? }

  predicate Enabled(s: System, a: Action) {
    match a
    case Start(t, entry, _) => t !in s.tasks && entry in s.runtime && entry in s.committed && entry in s.saved
    case Step(t, _) =>
      && t in s.tasks && !Ends(s.tasks[t].phase) && s.tasks[t].entry in s.runtime
      && s.tasks[t].entry in s.committed && s.tasks[t].entry in s.saved
      && (s.tasks[t].phase.AwaitingPermit? ==> s.permit.None?)
  }

  /** What one step changes: its task, its entry's runtime, the two documents, the permit. */
  datatype Move = Move(task: Task, runtime: Runtime, committed: Views, saved: Views, permit: Option<nat>)

  function Entry(s: System, t: nat): EntryId
    requires t in s.tasks
  {
    s.tasks[t].entry
  }

  /** A move that changes nothing but the phase. */
  function On(s: System, t: nat, phase: Phase): Move
    requires t in s.tasks && Entry(s, t) in s.runtime
  {
    Move(s.tasks[t].(phase := phase), s.runtime[Entry(s, t)], s.committed, s.saved, s.permit)
  }

  /** The fiber is offered the change. */
  function Offer(task: Task, r: Runtime): Runtime {
    match task.kind
    case Amend(config) => r.(staged := config)
    case Dispose => r.(running := false)
  }

  /** Validates and snapshots: an unknown or faulted entry, a config that does not encode, an unrested fiber refuse. */
  function Stage(s: System, t: nat, ok: bool): Move
    requires Enabled(s, Step(t, ok))
  {
    var r := s.runtime[Entry(s, t)];
    if !ok || r.fault then On(s, t, Ended(Rejected))
    else
      var phase := if r.running then Offering else AwaitingPermit;
      On(s, t, phase).(task := s.tasks[t].(found := s.committed[Entry(s, t)], held := r.running, phase := phase))
  }

  /** Re-derives both documents inside the permit. */
  function Permitted(s: System, t: nat): Move
    requires Enabled(s, Step(t, true))
  {
    var e, kind := Entry(s, t), s.tasks[t].kind;
    On(s, t, Saving(s.committed[e := Changed(kind, s.committed[e])], s.saved[e := Changed(kind, s.saved[e])], false))
      .(permit := Some(t))
  }

  /** A refused save is retried once for a disposal, which cannot be taken back; an amendment gives the permit up. */
  function Save(s: System, t: nat, ok: bool): Move
    requires Enabled(s, Step(t, ok)) && s.tasks[t].phase.Saving?
  {
    var phase := s.tasks[t].phase;
    if ok then On(s, t, Saved(phase.doc)).(saved := phase.file)
    else if s.tasks[t].kind.Amend? then On(s, t, Undoing).(permit := None)
    else On(s, t, if phase.retried then Unsaved(phase.doc) else Saving(phase.doc, phase.file, true))
  }

  /** The committed document and the applied record move together. */
  function Commit(s: System, t: nat): Move
    requires Enabled(s, Step(t, true)) && s.tasks[t].phase.Saved?
  {
    var task, r := s.tasks[t], s.runtime[Entry(s, t)];
    var spec := Changed(task.kind, task.found);
    On(s, t, if task.kind.Dispose? then Ended(Accepted) else Reloading)
      .(committed := task.phase.doc, permit := None,
        runtime := if task.kind.Dispose? then r.(spec := spec, running := false) else r.(spec := spec))
  }

  /** The applied record is moved to the runtime's reality, and the fault recorded. */
  function Divergence(s: System, t: nat): Move
    requires t in s.tasks && Entry(s, t) in s.runtime
  {
    var task := s.tasks[t];
    On(s, t, Ended(Diverged)).(runtime :=
      s.runtime[Entry(s, t)].(spec := Changed(task.kind, task.found), fault := true))
  }

  /** The staged config is withdrawn; failing that, the divergence is recorded. */
  function Undo(s: System, t: nat, ok: bool): Move
    requires t in s.tasks && Entry(s, t) in s.runtime
  {
    var task := s.tasks[t];
    if !task.held then On(s, t, Ended(Rejected))
    else if ok then On(s, t, Ended(Rejected)).(runtime := s.runtime[Entry(s, t)].(staged := task.found.config))
    else Divergence(s, t)
  }

  function MoveOf(s: System, t: nat, ok: bool): Move
    requires Enabled(s, Step(t, ok))
  {
    var task, r := s.tasks[t], s.runtime[Entry(s, t)];
    match task.phase
    case Staging => Stage(s, t, ok)
    case Offering => if !ok then On(s, t, Ended(Rejected)) else On(s, t, AwaitingPermit).(runtime := Offer(task, r))
    case AwaitingPermit => Permitted(s, t)
    case Saving(_, _, _) => Save(s, t, ok)
    case Saved(_) => Commit(s, t)
    case Unsaved(_) =>
      On(s, t, Recording).(permit := None, runtime := r.(spec := Changed(task.kind, task.found), running := false))
    case Reloading => On(s, t, Ended(if ok then Accepted else AcceptedLate))
    case Undoing => Undo(s, t, ok)
    case Recording => Divergence(s, t)
    case Ended(_) => On(s, t, task.phase)
  }

  /** An operation's end releases its engagement; what it commits is accepted. */
  function Moved(s: System, t: nat, m: Move): System
    requires t in s.tasks
  {
    var e := Entry(s, t);
    s.(tasks := s.tasks[t := m.task], runtime := s.runtime[e := m.runtime],
       committed := m.committed, saved := m.saved, permit := m.permit,
       engaged := if Ends(m.task.phase) then s.engaged - {e} else s.engaged,
       accepted := if s.tasks[t].phase.Saved? then s.accepted[e := Changed(s.tasks[t].kind, s.tasks[t].found)]
                   else s.accepted)
  }

  function Do(s: System, a: Action): System
    requires Enabled(s, a)
  {
    match a
    case Start(t, entry, kind) =>
      if entry in s.engaged then s
      else
        s.(engaged := s.engaged + {entry},
           tasks := s.tasks[t := Task(entry, kind, s.committed[entry], false, Staging)])
    case Step(t, ok) => Moved(s, t, MoveOf(s, t, ok))
  }

  // ----- agreement

  /** Runtime, committed document and saved document all hold one view of an entry. */
  predicate AllAt(s: System, e: EntryId, view: View) {
    && e in s.runtime && e in s.committed && e in s.saved
    && s.committed[e] == s.saved[e] == s.runtime[e].spec == view
    && (s.runtime[e].running ==> s.runtime[e].staged == view.config && !view.disabled)
  }

  /** An entry no operation is in flight on: its views agree, or its divergence is recorded. */
  predicate AtPeace(s: System, e: EntryId) {
    && e in s.runtime && e in s.committed && e in s.saved && s.committed[e] == s.saved[e]
    && (s.runtime[e].fault || AllAt(s, e, s.committed[e]))
  }

  /** How an operation in flight stands to the views of its entry. */
  predicate Fits(s: System, t: nat)
    requires t in s.tasks
  {
    var task := s.tasks[t];
    var e := task.entry;
    && e in s.runtime && e in s.committed && e in s.saved
    && var r := s.runtime[e]; var was := task.found; var now := Changed(task.kind, was);
       match task.phase
       case Staging => AtPeace(s, e)
       case Offering => !r.fault && task.held && r.running && AllAt(s, e, was)
       case AwaitingPermit => !r.fault && Offered(s, task)
       case Saving(doc, file, _) =>
         !r.fault && Offered(s, task) && doc == s.committed[e := now] && file == s.saved[e := now]
       case Saved(doc) =>
         && !r.fault && s.committed[e] == was && s.saved[e] == now && Given(r, task)
         && doc == s.committed[e := now]
       case Unsaved(doc) =>
         task.kind.Dispose? && !r.fault && Offered(s, task) && doc == s.committed[e := now]
       case Reloading => !r.fault && AllAt(s, e, now)
       case Undoing => task.kind.Amend? && !r.fault && Offered(s, task)
       case Recording => task.kind.Dispose? && r.spec == now && !r.running && s.committed[e] == was && s.saved[e] == was
       case Ended(_) => true
  }

  /** The fiber took the change; the records did not move yet. */
  predicate Given(r: Runtime, task: Task) {
    && r.spec == task.found
    && (if task.held then
          match task.kind
          case Amend(config) => r.running && r.staged == config && !task.found.disabled
          case Dispose => !r.running
        else !r.running)
  }

  predicate Offered(s: System, task: Task)
    requires task.entry in s.runtime && task.entry in s.committed && task.entry in s.saved
  {
    s.committed[task.entry] == s.saved[task.entry] == task.found && Given(s.runtime[task.entry], task)
  }

  /** The permit is held exactly while one operation saves and commits. */
  predicate UnderPermit(phase: Phase) { phase.Saving? || phase.Saved? || phase.Unsaved? }

  ghost predicate Kept(s: System) {
    && s.runtime.Keys <= s.committed.Keys == s.saved.Keys
    && (forall t :: t in s.tasks ==> Fits(s, t))
    && (forall t :: t in s.tasks && !Ends(s.tasks[t].phase) ==> s.tasks[t].entry in s.engaged)
    && (forall t, u :: t in s.tasks && u in s.tasks && t != u && !Ends(s.tasks[t].phase) && !Ends(s.tasks[u].phase) ==>
          s.tasks[t].entry != s.tasks[u].entry)
    && (forall t :: t in s.tasks && UnderPermit(s.tasks[t].phase) ==> s.permit == Some(t))
    && (forall e :: e in s.runtime && e !in s.engaged ==> AtPeace(s, e))
    && s.accepted == s.committed
  }

  // ----- each action keeps it

  /** What a step's move may be, whatever its phase. */
  predicate Lawful(s: System, t: nat, m: Move)
    requires t in s.tasks && Entry(s, t) in s.committed && Entry(s, t) in s.saved
  {
    var e := Entry(s, t);
    && m.task.entry == e && m.task.kind == s.tasks[t].kind
    // The documents move only under the permit, and at the step's own entry.
    && e in m.committed && m.committed == s.committed[e := m.committed[e]]
    && e in m.saved && m.saved == s.saved[e := m.saved[e]]
    && (!UnderPermit(s.tasks[t].phase) ==> m.committed == s.committed && m.saved == s.saved)
    && (!s.tasks[t].phase.Saved? ==> m.committed == s.committed)
    && (s.tasks[t].phase.Saved? ==> m.committed[e] == Changed(s.tasks[t].kind, s.tasks[t].found))
    // The permit is taken when free, kept while saving and committing, and given back by its holder.
    && (UnderPermit(m.task.phase) ==> m.permit == Some(t))
    && (m.permit != s.permit ==> s.permit.None? || UnderPermit(s.tasks[t].phase))
  }

  lemma MovesAreLawful(s: System, t: nat, ok: bool)
    requires Enabled(s, Step(t, ok)) && Fits(s, t) && (UnderPermit(s.tasks[t].phase) ==> s.permit == Some(t))
    ensures Lawful(s, t, MoveOf(s, t, ok))
  {
    assert s.committed[Entry(s, t) := s.committed[Entry(s, t)]] == s.committed;
    assert s.saved[Entry(s, t) := s.saved[Entry(s, t)]] == s.saved;
  }

  predicate FitsWell(s: System, t: nat)
    requires t in s.tasks
  {
    Fits(s, t) && (Ends(s.tasks[t].phase) ==> AtPeace(s, Entry(s, t)))
  }

  lemma EarlyFits(s: System, t: nat, ok: bool)
    requires Enabled(s, Step(t, ok)) && Fits(s, t)
    requires s.tasks[t].phase.Staging? || s.tasks[t].phase.Offering? || s.tasks[t].phase.AwaitingPermit?
    ensures FitsWell(Do(s, Step(t, ok)), t)
  {}

  lemma SaveFits(s: System, t: nat, ok: bool)
    requires Enabled(s, Step(t, ok)) && Fits(s, t) && UnderPermit(s.tasks[t].phase)
    ensures FitsWell(Do(s, Step(t, ok)), t)
  {}

  lemma LateFits(s: System, t: nat, ok: bool)
    requires Enabled(s, Step(t, ok)) && Fits(s, t)
    requires s.tasks[t].phase.Reloading? || s.tasks[t].phase.Undoing? || s.tasks[t].phase.Recording?
    ensures FitsWell(Do(s, Step(t, ok)), t)
  {}

  lemma OwnFits(s: System, t: nat, ok: bool)
    requires Enabled(s, Step(t, ok)) && Fits(s, t)
    ensures t in Do(s, Step(t, ok)).tasks && FitsWell(Do(s, Step(t, ok)), t)
  {
    hide Fits, FitsWell, MoveOf;
    match s.tasks[t].phase
    case Staging => EarlyFits(s, t, ok);
    case Offering => EarlyFits(s, t, ok);
    case AwaitingPermit => EarlyFits(s, t, ok);
    case Saving(_, _, _) => SaveFits(s, t, ok);
    case Saved(_) => SaveFits(s, t, ok);
    case Unsaved(_) => SaveFits(s, t, ok);
    case _ => LateFits(s, t, ok);
  }

  /**
   * Records and runtime that do not move at an entry, and documents that do not move under the permit, keep
   * another operation's footing.
   */
  lemma FitsApart(s: System, n: System, u: nat)
    requires u in s.tasks && u in n.tasks && n.tasks[u] == s.tasks[u] && Fits(s, u)
    requires var e := s.tasks[u].entry;
             && e in n.runtime && e in n.committed && e in n.saved
             && (!Ends(s.tasks[u].phase) ==>
                   n.runtime[e] == s.runtime[e] && n.committed[e] == s.committed[e] && n.saved[e] == s.saved[e])
    requires UnderPermit(s.tasks[u].phase) ==> n.committed == s.committed && n.saved == s.saved
    ensures Fits(n, u)
  {}

  /** What the invariant says of two operations in flight. */
  lemma KeptSays(s: System, t: nat, u: nat)
    requires Kept(s) && t in s.tasks && u in s.tasks && u != t && !Ends(s.tasks[t].phase)
    ensures Fits(s, t) && Fits(s, u)
    ensures Entry(s, u) in s.runtime && Entry(s, u) in s.committed && Entry(s, u) in s.saved
    ensures !Ends(s.tasks[u].phase) ==> Entry(s, u) != Entry(s, t)
    ensures UnderPermit(s.tasks[u].phase) ==> !UnderPermit(s.tasks[t].phase)
  {
    assert Fits(s, u) && Fits(s, t);
  }

  lemma OtherFits(s: System, t: nat, ok: bool, u: nat)
    requires Kept(s) && Enabled(s, Step(t, ok)) && u in s.tasks && u != t
    ensures u in Do(s, Step(t, ok)).tasks && Fits(Do(s, Step(t, ok)), u)
  {
    KeptSays(s, t, u);
    assert UnderPermit(s.tasks[t].phase) ==> s.permit == Some(t);
    hide Kept, Fits, MoveOf;
    MovesAreLawful(s, t, ok);
    FitsApart(s, Do(s, Step(t, ok)), u);
  }

  lemma OwnKeeps(s: System, t: nat, m: Move)
    requires Kept(s) && t in s.tasks && !Ends(s.tasks[t].phase) && Entry(s, t) in s.committed && Entry(s, t) in s.saved
    requires Lawful(s, t, m)
    ensures var n := Moved(s, t, m);
            && n.runtime.Keys <= n.committed.Keys == n.saved.Keys
            && (forall u :: u in n.tasks && UnderPermit(n.tasks[u].phase) ==> n.permit == Some(u))
            && (forall u :: u in n.tasks && !Ends(n.tasks[u].phase) ==> Entry(n, u) in n.engaged)
            && (forall u, v :: u in n.tasks && v in n.tasks && u != v
                               && !Ends(n.tasks[u].phase) && !Ends(n.tasks[v].phase) ==>
                  Entry(n, u) != Entry(n, v))
            && n.accepted == n.committed
  {
    hide Fits, AtPeace;
    assert Entry(s, t) in s.engaged;
  }

  lemma PeaceStays(s: System, t: nat, ok: bool, e: EntryId)
    requires Kept(s) && Enabled(s, Step(t, ok)) && e in Do(s, Step(t, ok)).runtime && e !in Do(s, Step(t, ok)).engaged
    ensures AtPeace(Do(s, Step(t, ok)), e)
  {
    assert Fits(s, t) && Entry(s, t) in s.engaged;
    assert UnderPermit(s.tasks[t].phase) ==> s.permit == Some(t);
    hide Fits, MoveOf;
    MovesAreLawful(s, t, ok);
    if e == Entry(s, t) {
      OwnFits(s, t, ok);
    } else {
      assert AtPeace(s, e);
    }
  }

  lemma StartKept(s: System, t: nat, entry: EntryId, kind: Kind)
    requires Kept(s) && Enabled(s, Start(t, entry, kind))
    ensures Kept(Do(s, Start(t, entry, kind)))
  {
    var n := Do(s, Start(t, entry, kind));
    forall u | u in n.tasks ensures Fits(n, u) { if u in s.tasks { assert Fits(s, u); } }
  }

  /** What a step starts from. */
  lemma StepFooting(s: System, t: nat, ok: bool)
    requires Kept(s) && Enabled(s, Step(t, ok))
    ensures Fits(s, t) && (UnderPermit(s.tasks[t].phase) ==> s.permit == Some(t))
    ensures Entry(s, t) in s.committed && Entry(s, t) in s.saved
    ensures Do(s, Step(t, ok)).tasks.Keys == s.tasks.Keys
  {}

  lemma StepKept(s: System, t: nat, ok: bool)
    requires Kept(s) && Enabled(s, Step(t, ok))
    ensures Kept(Do(s, Step(t, ok)))
  {
    hide Fits, AtPeace, MoveOf, Lawful, UnderPermit, Moved;
    var n := Do(s, Step(t, ok));
    StepFooting(s, t, ok);
    MovesAreLawful(s, t, ok);
    OwnKeeps(s, t, MoveOf(s, t, ok));
    forall u | u in n.tasks ensures Fits(n, u) {
      if u == t { OwnFits(s, t, ok); } else { OtherFits(s, t, ok, u); }
    }
    forall e | e in n.runtime && e !in n.engaged ensures AtPeace(n, e) { PeaceStays(s, t, ok, e); }
  }

  // ----- runs

  ghost predicate Runs(s: System, actions: seq<Action>)
    decreases |actions|, 0
  {
    actions == [] || (Runs(s, actions[..|actions| - 1])
                      && Enabled(After(s, actions[..|actions| - 1]), actions[|actions| - 1]))
  }

  ghost function After(s: System, actions: seq<Action>): System
    requires Runs(s, actions)
    decreases |actions|, 1
  {
    if actions == [] then s else Do(After(s, actions[..|actions| - 1]), actions[|actions| - 1])
  }

  /**
   * A system with nothing in flight and every running entry's views agreed, as a reconcile leaves it; an
   * entry that never came up is in both documents and has no runtime.
   */
  ghost predicate Reconciled(s: System) {
    && s.runtime.Keys <= s.committed.Keys == s.saved.Keys && s.tasks == map[] && s.engaged == {}
    && s.permit.None? && s.accepted == s.committed && forall e :: e in s.runtime ==> AtPeace(s, e)
  }

  lemma {:induction false} RunsKeep(s: System, actions: seq<Action>)
    requires Reconciled(s) && Runs(s, actions)
    ensures Kept(After(s, actions))
  {
    if actions != [] {
      RunsKeep(s, actions[..|actions| - 1]);
      var before, a := After(s, actions[..|actions| - 1]), actions[|actions| - 1];
      match a
      case Start(t, entry, kind) => StartKept(before, t, entry, kind);
      case Step(t, ok) => StepKept(before, t, ok);
    }
  }

  /** How an operation that ends leaves the views of its entry. */
  predicate EndsHonestly(s: System, n: System, t: nat)
    requires t in s.tasks && t in n.tasks && n.tasks[t].phase.Ended?
  {
    var e, task := Entry(s, t), n.tasks[t];
    && e in s.runtime && e in s.committed && e in s.saved && e in n.runtime && e in n.committed && e in n.saved
    && match task.phase.answer
       // Accepted: every view holds the change, though the reload that follows may still have failed.
       case Accepted => AllAt(n, e, Changed(task.kind, task.found))
       case AcceptedLate => AllAt(n, e, Changed(task.kind, task.found))
       // Rejected: every view is where it was.
       case Rejected =>
         && n.committed[e] == s.committed[e] == n.saved[e] == s.saved[e]
         && (if s.tasks[t].phase.Staging? then n.runtime[e] == s.runtime[e] else AllAt(n, e, task.found))
       // Diverged: recorded; the documents hold what was, the applied record what the runtime came to.
       case Diverged =>
         && n.runtime[e].fault && n.committed[e] == n.saved[e] == task.found
         && n.runtime[e].spec == Changed(task.kind, task.found)
         && (task.kind.Dispose? ==> !n.runtime[e].running)
         && (task.kind.Amend? ==> n.runtime[e].staged == task.kind.config)
  }

  lemma EndsAreHonest(s: System, t: nat, ok: bool)
    requires Enabled(s, Step(t, ok)) && Fits(s, t)
    ensures var n := Do(s, Step(t, ok)); t in n.tasks && (Ends(n.tasks[t].phase) ==> EndsHonestly(s, n, t))
  {}

  /**
   * Two views of one truth: over every interleaving of amendments and disposals the gate admits, and every
   * pattern of refused writes, offers and withdrawals, each operation that ends leaves runtime, committed
   * document and saved document all new, all as they were, or a recorded divergence.
   */
  lemma EveryEndIsHonest(s: System, actions: seq<Action>, i: nat, t: nat, ok: bool)
    requires Reconciled(s) && Runs(s, actions) && i < |actions| && actions[i] == Step(t, ok)
    ensures Runs(s, actions[..i]) && Enabled(After(s, actions[..i]), actions[i])
    ensures var m := After(s, actions[..i]); var n := Do(m, actions[i]);
            t in m.tasks && t in n.tasks && (Ends(n.tasks[t].phase) ==> EndsHonestly(m, n, t))
  {
    RunsPrefix(s, actions, i);
    RunsKeep(s, actions[..i]);
    assert Fits(After(s, actions[..i]), t);
    EndsAreHonest(After(s, actions[..i]), t, ok);
  }

  lemma {:induction false} RunsPrefix(s: System, actions: seq<Action>, i: nat)
    requires Runs(s, actions) && i <= |actions|
    ensures Runs(s, actions[..i])
    ensures i < |actions| ==> Enabled(After(s, actions[..i]), actions[i])
    decreases |actions|
  {
    hide Do, Enabled;
    if i < |actions| {
      var n := |actions| - 1;
      assert actions[..n][..i] == actions[..i];
      RunsPrefix(s, actions[..n], i);
      if i < n { assert actions[..n][i] == actions[i]; }
    } else {
      assert actions[..i] == actions;
    }
  }

  /**
   * No accepted amendment is lost: the committed document is at every point exactly what operations last
   * had accepted, entry by entry, and the saved one agrees wherever no operation is in flight.
   */
  lemma NothingAcceptedIsLost(s: System, actions: seq<Action>, e: EntryId)
    requires Reconciled(s) && Runs(s, actions)
    ensures var n := After(s, actions);
            && n.committed == n.accepted
            && (e in n.runtime && e !in n.engaged ==> e in n.committed && e in n.saved && n.saved[e] == n.committed[e])
  {
    RunsKeep(s, actions);
  }

  /** A step touches no sibling: another entry's records and runtime are as they were. */
  lemma SiblingsStay(s: System, t: nat, ok: bool, x: EntryId)
    requires Kept(s) && Enabled(s, Step(t, ok)) && x != Entry(s, t) && x in s.runtime
    ensures var n := Do(s, Step(t, ok));
            && x in n.runtime && x in n.committed && x in n.saved
            && n.runtime[x] == s.runtime[x] && n.committed[x] == s.committed[x] && n.saved[x] == s.saved[x]
            && (x in s.accepted ==> x in n.accepted && n.accepted[x] == s.accepted[x])
  {
    assert Fits(s, t) && (UnderPermit(s.tasks[t].phase) ==> s.permit == Some(t));
    hide Fits, MoveOf;
    MovesAreLawful(s, t, ok);
  }
}
