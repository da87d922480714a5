// The slot map and the lease cells of its generations, one critical section a method.

module Slots {
  import opened Profiles
  import opened Contexts

  /** The lease count and closed flag of one provider generation. */
  class LeaseCell {
    var active: nat
    var closed: bool

    constructor ()
      ensures active == 0 && !closed
    {
      active, closed := 0, false;
    }

    method Acquire() returns (acquired: bool)
      modifies this
      ensures acquired <==> !old(closed)
      ensures closed == old(closed) && active == old(active) + if acquired then 1 else 0
    {
      if closed { return false; }
      active := active + 1;
      acquired := true;
    }

    /** Releasing more than was acquired stays at zero. */
    method Release() returns (left: nat)
      modifies this
      ensures closed == old(closed) && left == active == if old(active) == 0 then 0 else old(active) - 1
    {
      active := if active == 0 then 0 else active - 1;
      left := active;
    }

    method Close() returns (left: nat)
      modifies this
      ensures closed && left == active == old(active)
    {
      closed := true;
      left := active;
    }
  }

  datatype SlotEntry = SlotEntry(provider: nat, generation: nat, leases: LeaseCell)

  class SlotMap {
    var slots: map<Address, SlotEntry>
    var generations: nat

    /** No generation stands at two addresses, none was minted after the counter, and each has its own cell. */
    ghost predicate Valid()
      reads this
    {
      && (forall a :: a in slots ==> 0 < slots[a].generation <= generations)
      && (forall a, b :: a in slots && b in slots && a != b ==>
            slots[a].generation != slots[b].generation && slots[a].leases != slots[b].leases)
    }

    constructor ()
      ensures Valid() && slots == map[] && generations == 0
    {
      slots, generations := map[], 0;
    }

    /** The generation is minted before the slot lock is taken. */
    method Mint() returns (generation: nat)
      modifies this`generations
      ensures generation == generations == old(generations) + 1
      ensures old(Valid()) ==> Valid()
    {
      generations := generations + 1;
      generation := generations;
    }

    /** Publishes a minted entry: another provider's slot refuses it, the same provider's is superseded and closed. */
    method Publish(address: Address, entry: SlotEntry) returns (refused: Option<nat>)
      requires Valid() && 0 < entry.generation <= generations
      requires forall a :: a in slots ==> slots[a].generation != entry.generation && slots[a].leases != entry.leases
      modifies this`slots, if address in slots then {slots[address].leases} else {}
      ensures Valid()
      ensures refused == if address in old(slots) && old(slots)[address].provider != entry.provider
                         then Some(old(slots)[address].provider) else None
      ensures refused.Some? ==> slots == old(slots) && (address in slots ==> unchanged(old(slots)[address].leases))
      ensures refused.None? ==> slots == old(slots)[address := entry]
      ensures refused.None? && address in old(slots) ==>
                old(slots)[address].leases.closed
                && old(slots)[address].leases.active == old(slots[address].leases.active)
    {
      if address in slots && slots[address].provider != entry.provider { return Some(slots[address].provider); }
      var superseded := if address in slots then Some(slots[address]) else None;
      slots := slots[address := entry];
      if superseded.Some? { var left := superseded.value.leases.Close(); }
      refused := None;
    }

    method Insert(address: Address, provider: nat) returns (entry: SlotEntry, refused: Option<nat>)
      requires Valid()
      modifies this, if address in slots then {slots[address].leases} else {}
      ensures Valid() && entry.provider == provider && entry.generation == generations == old(generations) + 1
      ensures fresh(entry.leases) && entry.leases.active == 0 && !entry.leases.closed
      ensures refused == if address in old(slots) && old(slots)[address].provider != provider
                         then Some(old(slots)[address].provider) else None
      ensures refused.Some? ==> slots == old(slots)
      ensures refused.None? ==> slots == old(slots)[address := entry]
      ensures refused.None? && address in old(slots) ==> old(slots)[address].leases.closed
    {
      var generation := Mint();
      var leases := new LeaseCell();
      entry := SlotEntry(provider, generation, leases);
      refused := Publish(address, entry);
    }

    /** A lease on the entry at an address, only while it carries the generation asked for. */
    method Lease(address: Address, generation: nat) returns (cell: Option<LeaseCell>)
      requires Valid()
      modifies if address in slots then {slots[address].leases} else {}
      ensures slots == old(slots) && Valid()
      ensures cell == if address in slots && slots[address].generation == generation
              && !old(slots[address].leases.closed)
                      then Some(slots[address].leases) else None
      ensures address in slots ==>
                && slots[address].leases.closed == old(slots[address].leases.closed)
                && slots[address].leases.active == old(slots[address].leases.active) + if cell.Some? then 1 else 0
    {
      if address !in slots || slots[address].generation != generation { return None; }
      var acquired := slots[address].leases.Acquire();
      cell := if acquired then Some(slots[address].leases) else None;
    }

    /** Withdraws the entry at an address if it still carries the generation, closing its leases with it. */
    method RemoveIf(address: Address, generation: nat) returns (removed: bool)
      requires Valid()
      modifies this`slots, if address in slots then {slots[address].leases} else {}
      ensures Valid()
      ensures removed <==> address in old(slots) && old(slots)[address].generation == generation
      ensures removed ==> slots == old(slots) - {address} && old(slots)[address].leases.closed
      ensures !removed ==> slots == old(slots) && (address in slots ==> unchanged(slots[address].leases))
      ensures address in slots ==> slots[address].generation != generation
    {
      if address !in slots || slots[address].generation != generation { return false; }
      var entry := slots[address];
      slots := slots - {address};
      var left := entry.leases.Close();
      removed := true;
    }
  }
}
