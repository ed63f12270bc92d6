/** The expectation layers as they run: a per-thread slot, set, consumed under the lock, and cleared. */
module BoundAuthority {
  import opened Names
  import opened Wrappers
  import opened LearningStore
  import opened Checkpoint
  import opened CheckpointAuthority
  import opened Expectations

  class BoundCheckpointAuthority {
    const base: LearningCheckpointAuthority
    var pending: map<Name, Expectation>

    ghost predicate Valid()
      reads base
    {
      base.Valid()
    }

    ghost function View(store: StoreTables): Bound
      reads this, base, store
    {
      Bound(base.View(store), pending)
    }

    constructor (base: LearningCheckpointAuthority)
      requires base.Valid()
      ensures Valid() && this.base == base && pending == map[]
    {
      this.base := base;
      this.pending := map[];
    }

    /** Enter `with expect(...)`. */
    method Expect(ghost store: StoreTables, thread: Name, e: Expectation) returns (r: Verdict<()>)
      modifies this
      ensures
        match Expectations.Expect(old(View(store)), thread, e)
        case Err(error) => r == Err(error) && View(store) == old(View(store))
        case Ok(begun) => r == Ok(()) && View(store) == begun
    {
      if thread in pending {
        return Err(ExpectationAlreadyActive);
      }
      pending := pending[thread := e];
      r := Ok(());
    }

    /** Leave it, however the body ended. */
    method Release(ghost store: StoreTables, thread: Name)
      modifies this
      ensures View(store) == Expectations.Release(old(View(store)), thread)
    {
      pending := pending - {thread};
    }

    method VerifyStore(store: StoreTables, thread: Name) returns (r: Verdict<Record>)
      modifies this
      ensures BoundReply(View(store), r) == VerifyBound(old(View(store)), thread, base.cfg, base.keyring)
    {
      var latest :- base.VerifyStore(store);
      if thread !in pending {
        return Ok(latest);
      }
      var expected := pending[thread];
      pending := pending - {thread};
      var fault := expected.Fault(latest);
      r := if fault.Some? then Err(fault.value) else Ok(latest);
    }

    method Mutate(store: StoreTables, thread: Name, op: Operation, now: Name, durable: nat) returns (r: Verdict<Record>)
      requires Valid()
      modifies this, base, store
      ensures BoundReply(View(store), r) ==
              MutateBound(old(View(store)), thread, base.cfg, base.keyring, op, now, durable)
    {
      if thread in pending && pending[thread].Kind() != MutationOf(op) {
        return Err(ExpectationKindMismatch);
      }
      var before :- VerifyStore(store, thread);
      r := base.MutateFrom(store, before, op, now, durable);
    }

    /**
      One ceremony: the operation goes through only if the head is still the expected
      checkpoint, and a stale expectation leaves every file and every slot as it was.
    */
    method MutateUnder(store: StoreTables, thread: Name, e: Expectation, op: Operation, now: Name, durable: nat)
      returns (r: Verdict<Record>)
      requires Valid()
      modifies this, base, store
      ensures BoundReply(View(store), r) ==
              Expectations.MutateUnder(old(View(store)), thread, e, base.cfg, base.keyring, op, now, durable)
    {
      var begun :- Expect(store, thread, e);
      r := Mutate(store, thread, op, now, durable);
      Release(store, thread);
    }
  }
}
