// Provisions, leases and withdrawals interleaving over one slot map: a state
// machine whose every action is one critical section. A withdrawal takes several
// of them, with every other task's actions in between.

module Withdrawals {
  import opened Profiles
  import opened Contexts

  type Generation = nat

  datatype Cell = Cell(active: nat, closed: bool)

  datatype Slot = Slot(provider: nat, generation: Generation)

  /** A provision between its mint and its insertion. */
  datatype Pending = Pending(address: Address, provider: nat, generation: Generation)

  datatype Phase = Removing | Closing | Draining | Finished

  /** One withdrawal walk of one provision. */
  datatype Walk = Walk(address: Address, generation: Generation, phase: Phase)

  /** `held` counts the guards outstanding; `published` is history: where each generation was inserted. */
  datatype Registry = Registry(
    minted: nat, pending: map<nat, Pending>, slots: map<Address, Slot>, cells: map<Generation, Cell>,
    held: multiset<Generation>, published: map<Generation, Address>, walks: map<nat, Walk>)

  const EMPTY := Registry(0, map[], map[], map[], multiset{}, map[], map[])

  datatype Action =
    | Mint(task: nat, address: Address, provider: nat)
    | Insert(task: nat)
    | Lease(address: Address, generation: Generation)
    | Release(generation: Generation)
    | Withdraw(walk: nat, generation: Generation)
    | Advance(walk: nat)

  predicate Enabled(s: Registry, a: Action) {
    match a
    case Mint(task, _, _) => task !in s.pending
    case Insert(task) => task in s.pending && s.pending[task].generation in s.cells
    case Lease(_, _) => true
    case Release(generation) => generation in s.held && generation in s.cells
    case Withdraw(walk, generation) => walk !in s.walks && generation in s.published
    case Advance(walk) => walk in s.walks && s.walks[walk].generation in s.cells && CanAdvance(s, s.walks[walk])
  }

  /**
   * A walk waits for its generation to drain, or for no guard at all to be left that could wake it; the
   * waiting is edge-driven in the source, and its wake is not modelled.
   */
  predicate CanAdvance(s: Registry, walk: Walk) {
    walk.phase != Finished &&
    (walk.phase == Draining ==>
       || s.held == multiset{}
       || (walk.generation in s.cells && s.cells[walk.generation].closed && s.cells[walk.generation].active == 0))
  }

  function Closed(cells: map<Generation, Cell>, generation: Generation): map<Generation, Cell> {
    if generation in cells then cells[generation := cells[generation].(closed := true)] else cells
  }

  /** Another provider's slot refuses a provision; the same provider's is superseded and its leases closed. */
  function DoInsert(s: Registry, task: nat): Registry
    requires task in s.pending
  {
    var p := s.pending[task];
    if p.address in s.slots && s.slots[p.address].provider != p.provider then s.(pending := s.pending - {task})
    else
      s.(pending := s.pending - {task},
         slots := s.slots[p.address := Slot(p.provider, p.generation)],
         cells := if p.address in s.slots then Closed(s.cells, s.slots[p.address].generation) else s.cells,
         published := s.published[p.generation := p.address])
  }

  /** A lease is taken only on the generation asked for, while it stands and is open. */
  predicate Leases(s: Registry, address: Address, generation: Generation) {
    && address in s.slots && s.slots[address].generation == generation
    && generation in s.cells && !s.cells[generation].closed
  }

  function DoAdvance(s: Registry, walk: nat): Registry
    requires walk in s.walks
  {
    var w := s.walks[walk];
    match w.phase
    case Removing =>
      var to := s.(walks := s.walks[walk := w.(phase := Closing)]);
      if w.address in s.slots && s.slots[w.address].generation == w.generation
      then to.(slots := s.slots - {w.address}, cells := Closed(s.cells, w.generation)) else to
    case Closing => s.(walks := s.walks[walk := w.(phase := Draining)], cells := Closed(s.cells, w.generation))
    case _ => s.(walks := s.walks[walk := w.(phase := Finished)])
  }

  function Do(s: Registry, a: Action): Registry
    requires Enabled(s, a)
  {
    match a
    case Mint(task, address, provider) =>
      s.(minted := s.minted + 1, cells := s.cells[s.minted + 1 := Cell(0, false)],
         pending := s.pending[task := Pending(address, provider, s.minted + 1)])
    case Insert(task) => DoInsert(s, task)
    case Lease(address, generation) =>
      if Leases(s, address, generation)
      then s.(held := s.held + multiset{generation},
              cells := s.cells[generation := s.cells[generation].(active := s.cells[generation].active + 1)])
      else s
    case Release(generation) =>
      var cell := s.cells[generation];
      s.(held := s.held - multiset{generation},
         cells := s.cells[generation := cell.(active := if cell.active == 0 then 0 else cell.active - 1)])
    case Withdraw(walk, generation) =>
      s.(walks := s.walks[walk := Walk(s.published[generation], generation, Removing)])
    case Advance(walk) => DoAdvance(s, walk)
  }

  // ----- what every interleaving keeps

  /** Each generation's count is its guards outstanding, and every generation minted has its cell. */
  ghost predicate Counted(s: Registry) {
    && (forall g :: g in s.cells <==> 0 < g <= s.minted)
    && (forall g :: g in s.cells ==> s.cells[g].active == s.held[g])
    && (forall g :: g in s.held ==> g in s.cells)
  }

  predicate Unpublished(s: Registry, generation: Generation) {
    generation in s.cells && !s.cells[generation].closed && generation !in s.published
  }

  /** What is pending was never published, and is minted for one task alone. */
  ghost predicate Fresh(s: Registry) {
    && (forall t :: t in s.pending ==> Unpublished(s, s.pending[t].generation))
    && (forall t, u :: t in s.pending && u in s.pending && t != u ==>
         s.pending[t].generation != s.pending[u].generation)
    && (forall g :: g in s.published ==> g in s.cells)
  }

  /**
   * A slot carries a generation published at its address, open; a published generation that stands nowhere is
   * closed.
   */
  ghost predicate Standing(s: Registry) {
    && (forall a :: a in s.slots ==>
          s.slots[a].generation in s.published && s.published[s.slots[a].generation] == a
          && s.slots[a].generation in s.cells && !s.cells[s.slots[a].generation].closed)
    && (forall g :: g in s.published && g in s.cells && !s.cells[g].closed ==>
          s.published[g] in s.slots && s.slots[s.published[g]].generation == g)
  }

  /** How far a walk has come: past removing, its cell is closed; finished, no guard of it is out. */
  ghost predicate OnCourse(s: Registry, walk: Walk) {
    && walk.generation in s.published && s.published[walk.generation] == walk.address
    && walk.generation in s.cells
    && (walk.phase != Removing ==> s.cells[walk.generation].closed)
    && (walk.phase == Finished ==> s.cells[walk.generation].active == 0)
  }

  ghost predicate Walking(s: Registry) { forall w :: w in s.walks ==> OnCourse(s, s.walks[w]) }

  ghost predicate Kept(s: Registry) { Counted(s) && Fresh(s) && Standing(s) && Walking(s) }

  lemma MintCounted(s: Registry, task: nat, address: Address, provider: nat)
    requires Counted(s) && task !in s.pending
    ensures Counted(Do(s, Mint(task, address, provider)))
  {}

  lemma MintStays(s: Registry, task: nat, address: Address, provider: nat)
    requires Kept(s) && task !in s.pending
    ensures var n := Do(s, Mint(task, address, provider)); Fresh(n) && Standing(n) && Walking(n)
  {
    MintFresh(s, task, address, provider);
  }

  lemma MintFresh(s: Registry, task: nat, address: Address, provider: nat)
    requires Counted(s) && Fresh(s) && task !in s.pending
    ensures Fresh(Do(s, Mint(task, address, provider)))
  {}

  lemma MintKept(s: Registry, task: nat, address: Address, provider: nat)
    requires Kept(s) && task !in s.pending
    ensures Kept(Do(s, Mint(task, address, provider)))
  {
    hide Counted, Fresh, Standing, Walking;
    MintCounted(s, task, address, provider);
    MintStays(s, task, address, provider);
  }

  lemma InsertCounted(s: Registry, task: nat)
    requires Counted(s) && task in s.pending
    ensures Counted(DoInsert(s, task))
  {}

  lemma InsertFresh(s: Registry, task: nat)
    requires Counted(s) && Fresh(s) && Standing(s) && task in s.pending
    ensures Fresh(DoInsert(s, task))
  {}

  lemma InsertStanding(s: Registry, task: nat)
    requires Fresh(s) && Standing(s) && task in s.pending
    ensures Standing(DoInsert(s, task))
  {}

  lemma InsertWalking(s: Registry, task: nat)
    requires Fresh(s) && Walking(s) && task in s.pending
    ensures Walking(DoInsert(s, task))
  {}

  lemma LeaseCounted(s: Registry, address: Address, generation: Generation)
    requires Counted(s)
    ensures Counted(Do(s, Lease(address, generation)))
  {}

  lemma LeaseStays(s: Registry, address: Address, generation: Generation)
    requires Kept(s)
    ensures var n := Do(s, Lease(address, generation)); Fresh(n) && Standing(n) && Walking(n)
  {}

  lemma LeaseKept(s: Registry, address: Address, generation: Generation)
    requires Kept(s)
    ensures Kept(Do(s, Lease(address, generation)))
  {
    hide Counted, Fresh, Standing, Walking;
    LeaseCounted(s, address, generation);
    LeaseStays(s, address, generation);
  }

  lemma ReleaseKept(s: Registry, generation: Generation)
    requires Kept(s) && Enabled(s, Release(generation))
    ensures Kept(Do(s, Release(generation)))
  {
    hide Counted, Fresh, Standing, Walking;
    ReleaseCounted(s, generation);
    ReleaseStays(s, generation);
  }

  lemma ReleaseCounted(s: Registry, generation: Generation)
    requires Counted(s) && Enabled(s, Release(generation))
    ensures Counted(Do(s, Release(generation)))
  {}

  lemma ReleaseStays(s: Registry, generation: Generation)
    requires Kept(s) && Enabled(s, Release(generation))
    ensures var n := Do(s, Release(generation)); Fresh(n) && Standing(n) && Walking(n)
  {}

  lemma WithdrawKept(s: Registry, walk: nat, generation: Generation)
    requires Kept(s) && Enabled(s, Withdraw(walk, generation))
    ensures Kept(Do(s, Withdraw(walk, generation)))
  {}

  /** Closing a cell leaves its count alone, and every other cell. */
  lemma ClosedCounts(cells: map<Generation, Cell>, generation: Generation)
    ensures var closed := Closed(cells, generation);
            && closed.Keys == cells.Keys
            && forall g :: g in cells ==> closed[g] == Cell(cells[g].active, cells[g].closed || g == generation)
  {}

  lemma AdvanceCounted(s: Registry, walk: nat)
    requires Counted(s) && walk in s.walks
    ensures Counted(DoAdvance(s, walk))
  {
    hide Closed;
    ClosedCounts(s.cells, s.walks[walk].generation);
  }

  lemma AdvanceFresh(s: Registry, walk: nat)
    requires Fresh(s) && Walking(s) && walk in s.walks
    ensures Fresh(DoAdvance(s, walk))
  {}

  lemma AdvanceStanding(s: Registry, walk: nat)
    requires Standing(s) && Walking(s) && walk in s.walks
    ensures Standing(DoAdvance(s, walk))
  {}

  lemma AdvanceWalking(s: Registry, walk: nat)
    requires Counted(s) && Standing(s) && Walking(s) && Enabled(s, Advance(walk))
    ensures Walking(DoAdvance(s, walk))
  {
    var n := DoAdvance(s, walk);
    forall w | w in n.walks ensures OnCourse(n, n.walks[w]) {
      if w == walk { AdvanceOwn(s, walk); } else { AdvanceOther(s, walk, w); }
    }
  }

  lemma AdvanceOwn(s: Registry, walk: nat)
    requires Counted(s) && Standing(s) && Walking(s) && Enabled(s, Advance(walk))
    ensures OnCourse(DoAdvance(s, walk), DoAdvance(s, walk).walks[walk])
  {
    assert OnCourse(s, s.walks[walk]);
  }

  lemma AdvanceOther(s: Registry, walk: nat, w: nat)
    requires walk in s.walks && w in s.walks && w != walk && OnCourse(s, s.walks[w])
    ensures w in DoAdvance(s, walk).walks && OnCourse(DoAdvance(s, walk), DoAdvance(s, walk).walks[w])
  {
    hide Closed;
    ClosedCounts(s.cells, s.walks[walk].generation);
  }

  lemma StepKept(s: Registry, a: Action)
    requires Kept(s) && Enabled(s, a)
    ensures Kept(Do(s, a))
  {
    hide Counted, Fresh, Standing, Walking;
    match a
    case Mint(task, address, provider) => MintKept(s, task, address, provider);
    case Insert(task) => InsertCounted(s, task); InsertFresh(s, task); InsertStanding(s, task); InsertWalking(s, task);
    case Lease(address, generation) => LeaseKept(s, address, generation);
    case Release(generation) => ReleaseKept(s, generation);
    case Withdraw(walk, generation) => WithdrawKept(s, walk, generation);
    case Advance(walk) =>
      AdvanceCounted(s, walk); AdvanceFresh(s, walk); AdvanceStanding(s, walk); AdvanceWalking(s, walk);
  }

  // ----- runs

  ghost predicate Runs(s: Registry, actions: seq<Action>)
    decreases |actions|, 0
  {
    actions == [] || (Runs(s, actions[..|actions| - 1])
                      && Enabled(After(s, actions[..|actions| - 1]), actions[|actions| - 1]))
  }

  ghost function After(s: Registry, actions: seq<Action>): Registry
    requires Runs(s, actions)
    decreases |actions|, 1
  {
    if actions == [] then s else Do(After(s, actions[..|actions| - 1]), actions[|actions| - 1])
  }

  lemma {:induction false} RunsKeep(s: Registry, actions: seq<Action>)
    requires Kept(s) && Runs(s, actions)
    ensures Kept(After(s, actions))
  {
    if actions != [] {
      RunsKeep(s, actions[..|actions| - 1]);
      StepKept(After(s, actions[..|actions| - 1]), actions[|actions| - 1]);
    }
  }

  /**
   * Dependents are waited out: over every interleaving each generation's count is its guards outstanding,
   * and a withdrawal that has finished leaves none outstanding and none that can be taken, at any address.
   */
  lemma WithdrawalsWaitOut(actions: seq<Action>, walk: nat, address: Address)
    requires Runs(EMPTY, actions) && walk in After(EMPTY, actions).walks
    requires After(EMPTY, actions).walks[walk].phase == Finished
    ensures var s := After(EMPTY, actions); var g := s.walks[walk].generation;
            && g in s.cells && s.cells[g].closed && s.cells[g].active == s.held[g] == 0
            && !Leases(s, address, g)
  {
    RunsKeep(EMPTY, actions);
  }

  lemma CountsAreGuards(actions: seq<Action>, generation: Generation)
    requires Runs(EMPTY, actions) && generation in After(EMPTY, actions).cells
    ensures After(EMPTY, actions).cells[generation].active == After(EMPTY, actions).held[generation]
  {
    RunsKeep(EMPTY, actions);
  }

  /** What one step may do to a slot and to a generation's past. */
  ghost predicate NeverTaken(s: Registry, a: Action, n: Registry) {
    // A different provider never replaces an occupant.
    && (forall x :: x in s.slots && x in n.slots ==>
         n.slots[x].provider == s.slots[x].provider || n.slots[x] == s.slots[x])
    // A slot is emptied only by the withdrawal of the very generation it carries.
    && (forall x :: x in s.slots && x !in n.slots ==>
          a.Advance? && a.walk in s.walks && s.walks[a.walk].address == x
          && s.walks[a.walk].generation == s.slots[x].generation)
    // A generation is published at most once, and a closed one never opens or stands again.
    && (forall g :: g in s.published ==> g in n.published && n.published[g] == s.published[g])
    && (forall g :: g in s.cells ==> g in n.cells && (s.cells[g].closed ==> n.cells[g].closed))
    && s.minted <= n.minted
  }

  lemma InsertNeverTakes(s: Registry, task: nat)
    requires Kept(s) && Enabled(s, Insert(task))
    ensures NeverTaken(s, Insert(task), Do(s, Insert(task)))
  {}

  lemma AdvanceNeverTakes(s: Registry, walk: nat)
    requires Kept(s) && Enabled(s, Advance(walk))
    ensures NeverTaken(s, Advance(walk), Do(s, Advance(walk)))
  {
    hide Closed, Counted, Fresh, Walking;
    ClosedCounts(s.cells, s.walks[walk].generation);
  }

  lemma OthersNeverTake(s: Registry, a: Action)
    requires Counted(s) && Enabled(s, a) && !a.Insert? && !a.Advance?
    ensures NeverTaken(s, a, Do(s, a))
  {}

  lemma StepNeverTakes(s: Registry, a: Action)
    requires Kept(s) && Enabled(s, a)
    ensures NeverTaken(s, a, Do(s, a))
  {
    hide Counted, Fresh, Standing, Walking, NeverTaken;
    match a
    case Insert(task) => InsertNeverTakes(s, task);
    case Advance(walk) => AdvanceNeverTakes(s, walk);
    case _ => OthersNeverTake(s, a);
  }

  lemma NeverReopened(s: Registry, a: Action, generation: Generation)
    requires Kept(s) && Enabled(s, a) && generation in s.cells && s.cells[generation].closed
    ensures forall x :: x in Do(s, a).slots ==> Do(s, a).slots[x].generation != generation
  {
    StepNeverTakes(s, a);
    StepKept(s, a);
  }

  /** What is published stays published where it was, and what is closed stays closed. */
  ghost predicate Lasts(s: Registry, n: Registry) {
    && (forall g :: g in s.published ==> g in n.published && n.published[g] == s.published[g])
    && (forall g :: g in s.cells ==> g in n.cells && (s.cells[g].closed ==> n.cells[g].closed))
  }

  lemma {:induction false} RunsLast(s: Registry, actions: seq<Action>, i: nat)
    requires Kept(s) && Runs(s, actions) && i <= |actions|
    ensures Runs(s, actions[..i]) && Lasts(After(s, actions[..i]), After(s, actions))
    decreases |actions|
  {
    hide Kept;
    if i == |actions| {
      assert actions[..i] == actions;
    } else {
      var before := actions[..|actions| - 1];
      assert before[..i] == actions[..i];
      RunsLast(s, before, i);
      RunsKeep(s, before);
      StepNeverTakes(After(s, before), actions[|actions| - 1]);
    }
  }

  predicate StandsAt(s: Registry, generation: Generation, address: Address) {
    address in s.slots && s.slots[address].generation == generation
  }

  /**
   * A generation names one slot: over every run, it never stands at two addresses, at one moment or at two,
   * and once it has been superseded or withdrawn it never stands again.
   */
  lemma GenerationsAreUnique(actions: seq<Action>, i: nat, a: Address, b: Address)
    requires Runs(EMPTY, actions) && i <= |actions|
    ensures Runs(EMPTY, actions[..i])
    ensures var early, late := After(EMPTY, actions[..i]), After(EMPTY, actions);
            && (forall g :: StandsAt(early, g, a) && StandsAt(late, g, b) ==> a == b)
            && (forall g :: g in early.published && !StandsAt(early, g, early.published[g]) ==> !StandsAt(late, g, b))
  {
    RunsLast(EMPTY, actions, i);
    RunsKeep(EMPTY, actions);
    RunsKeep(EMPTY, actions[..i]);
  }

  // ----- monotone generations

  /** A provision's generation is the greatest minted exactly when none was minted while it waited to be inserted. */
  lemma RisesWhen(s: Registry, task: nat)
    requires Kept(s) && task in s.pending
    requires s.pending[task].address !in s.slots
             || s.slots[s.pending[task].address].provider == s.pending[task].provider
    ensures var n := DoInsert(s, task); var p := s.pending[task];
            && p.address in n.slots && n.slots[p.address].generation == p.generation
            && ((forall g :: g in n.cells ==> g <= p.generation) <==> p.generation == s.minted)
            && (p.generation == s.minted && p.address in s.slots ==> s.slots[p.address].generation < p.generation)
  {
    assert s.minted > 0 ==> s.minted in DoInsert(s, task).cells;
  }

  lemma Then(s: Registry, actions: seq<Action>, a: Action) returns (more: seq<Action>)
    requires Runs(s, actions) && Enabled(After(s, actions), a)
    ensures more == actions + [a] && Runs(s, more) && After(s, more) == Do(After(s, actions), a)
  {
    more := actions + [a];
    assert more[..|actions|] == actions;
  }

  /**
   * Minting before the slot lock lets a slot's generation fall: two provisions of one provider, inserted the
   * other way round.
   */
  lemma GenerationsCanFall(address: Address, provider: nat) returns (before: seq<Action>, last: Action)
    ensures Runs(EMPTY, before) && Enabled(After(EMPTY, before), last) && Kept(After(EMPTY, before))
    ensures var s := After(EMPTY, before); var n := Do(s, last);
            address in s.slots && address in n.slots && n.slots[address].generation < s.slots[address].generation
  {
    before := [];
    before := Then(EMPTY, before, Mint(0, address, provider));
    before := Then(EMPTY, before, Mint(1, address, provider));
    before := Then(EMPTY, before, Insert(1));
    RunsKeep(EMPTY, before);
    last := Insert(0);
    assert After(EMPTY, before).slots[address] == Slot(provider, 2);
  }
}
