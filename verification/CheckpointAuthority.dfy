/** The checkpoint authority as it runs: a journal and a witness changed step by step, proved against the protocol. */
module CheckpointAuthority {
  import opened Names
  import opened Wrappers
  import opened HashChain
  import opened LearningStore
  import opened Checkpoint
  import opened CheckpointLaws
  import opened CheckpointRuns

  /** The store's database file. */
  class StoreTables {
    var tables: Store

    constructor (tables: Store)
      ensures this.tables == tables
    {
      this.tables := tables;
    }

    /** Run one operation as a transaction; `durable == 0` dies before its commit. */
    method Perform(op: Operation, now: Name, durable: nat) returns (r: Verdict<bool>)
      modifies this
      ensures
        match LearningStore.Perform(old(tables), op, now)
        case Err(reason) => r == Err(OperationRefused(reason)) && tables == old(tables)
        case Ok(store) =>
          if store != old(tables) && durable == 0 then r == Err(Interrupted) && tables == old(tables)
          else r == Ok(store != old(tables)) && tables == store
    {
      match LearningStore.Perform(tables, op, now) {
        case Err(reason) => r := Err(OperationRefused(reason));
        case Ok(store) =>
          if store != tables && durable == 0 {
            return Err(Interrupted);
          }
          r := Ok(store != tables);
          tables := store;
      }
    }
  }

  class LearningCheckpointAuthority {
    const cfg: Config
    const keyring: Keyring
    var journal: seq<Record>
    var headWitness: Option<Witness>

    ghost predicate Valid() {
      keyring.Valid()
    }

    ghost function View(store: StoreTables): System
      reads this, store
    {
      System(store.tables, journal, headWitness)
    }

    /** Open the files that an earlier process may have left behind. */
    constructor (cfg: Config, keyring: Keyring, journal: seq<Record>, headWitness: Option<Witness>)
      requires keyring.Valid()
      ensures Valid() && this.cfg == cfg && this.keyring == keyring
      ensures this.journal == journal && this.headWitness == headWitness
    {
      this.cfg, this.keyring := cfg, keyring;
      this.journal, this.headWitness := journal, headWitness;
    }

    /** One pass over the journal, carrying the previous digest. */
    method VerifyJournal(ghost store: StoreTables) returns (r: Verdict<seq<Record>>)
      ensures r == Checkpoint.VerifyJournal(View(store), cfg, keyring)
    {
      var bytes := 0;
      for i := 0 to |journal|
        invariant bytes == JournalBytes(cfg, journal[..i])
      {
        assert journal[..i + 1][..i] == journal[..i];
        bytes := bytes + cfg.lineBytes(journal[i]);
      }
      assert journal[..|journal|] == journal;
      if bytes > MAX_JOURNAL_BYTES {
        return Err(JournalTooLarge);
      }
      ghost var sys := View(store);
      var loaded := LoadWitness(System(Store([], []), journal, headWitness), cfg, keyring);
      assert loaded == LoadWitness(sys, cfg, keyring);
      if journal == [] {
        if loaded.Err? {
          return Err(loaded.error);
        }
        return if loaded.value.Some? then Err(JournalRequired) else Ok([]);
      }
      var previous: Digest<Signed> := Genesis;
      var i := 0;
      while i < |journal|
        invariant i <= |journal|
        invariant previous == Head(journal[..i])
        invariant ScanFault(cfg, journal, 0) == ScanFault(cfg, journal, i)
      {
        var fault := RecordFault(cfg, journal[i], i + 1, previous);
        if fault.Some? {
          return Err(fault.value);
        }
        previous := journal[i].digest;
        assert journal[..i + 1][i] == journal[i];
        i := i + 1;
      }
      var latest := journal[|journal| - 1];
      var signature := SignatureFault(keyring, latest);
      if signature.Some? {
        return Err(signature.value);
      }
      if loaded.Err? {
        return Err(loaded.error);
      }
      if loaded.value.None? {
        return Err(WitnessRequired);
      }
      var w := loaded.value.value;
      if w.sequence != latest.body.fields.sequence || w.digest != latest.digest || w.keyId != latest.body.fields.keyId {
        return Err(WitnessHeadMismatch);
      }
      r := Ok(journal);
    }

    method VerifyStore(store: StoreTables) returns (r: Verdict<Record>)
      ensures r == Checkpoint.VerifyStore(View(store), cfg, keyring)
    {
      var records :- VerifyJournal(store);
      if records == [] {
        return Err(CheckpointRequired);
      }
      var latest := records[|records| - 1];
      var state :- Capture(store.tables, cfg.storeId);
      r := if latest.body.fields.state != state then Err(StoreStateMismatch) else Ok(latest);
    }

    /** Journal append, witness replace, and a last verification of everything. */
    method Append(store: StoreTables, state: State, sequence: nat, previous: Digest<Signed>, mutation: Mutation,
                  now: Name, durable: nat)
      returns (r: Verdict<Record>)
      requires Valid()
      modifies this
      ensures Reply(View(store), r) ==
              AppendAndConfirm(old(View(store)), cfg, keyring,
                               MakeRecord(keyring, state, sequence, previous, mutation, now), now, durable)
    {
      var record := MakeRecord(keyring, state, sequence, previous, mutation, now);
      if durable == 0 {
        return Err(Interrupted);
      }
      journal := journal + [record];
      if durable == 1 {
        return Err(Interrupted);
      }
      headWitness := Some(MakeWitness(cfg, keyring, record, now));
      var confirmed :- VerifyStore(store);
      r := Ok(record);
    }

    method Bootstrap(store: StoreTables, now: Name, durable: nat) returns (r: Verdict<Record>)
      requires Valid()
      modifies this
      ensures Reply(View(store), r) == Checkpoint.Bootstrap(old(View(store)), cfg, keyring, now, durable)
    {
      var sys := System(store.tables, journal, headWitness);
      var records :- LoadJournal(sys, cfg);
      if records != [] {
        return Err(AlreadyBootstrapped);
      }
      var present :- LoadWitness(sys, cfg, keyring);
      if present.Some? {
        return Err(AlreadyBootstrapped);
      }
      var state :- Capture(store.tables, cfg.storeId);
      r := Append(store, state, 1, Genesis, Bootstrapped, now, durable);
    }

    method RotateKey(store: StoreTables, now: Name, durable: nat) returns (r: Verdict<Record>)
      requires Valid()
      modifies this
      ensures Reply(View(store), r) == Checkpoint.RotateKey(old(View(store)), cfg, keyring, now, durable)
    {
      var latest :- VerifyStore(store);
      r := RotateFrom(store, latest, now, durable);
    }

    method RotateFrom(store: StoreTables, latest: Record, now: Name, durable: nat) returns (r: Verdict<Record>)
      requires Valid()
      modifies this
      ensures Reply(View(store), r) == Checkpoint.RotateFrom(old(View(store)), cfg, keyring, latest, now, durable)
    {
      if latest.body.fields.keyId == keyring.active {
        return Ok(latest);
      }
      var state :- Capture(store.tables, cfg.storeId);
      r := Append(store, state, latest.body.fields.sequence + 1, latest.digest, KeyRotated, now, durable);
    }

    method Advance(store: StoreTables, before: Record, mutation: Mutation, now: Name, durable: nat)
      returns (r: Verdict<Record>)
      requires Valid()
      modifies this
      ensures Reply(View(store), r) ==
              Checkpoint.Advance(old(View(store)), cfg, keyring, before, mutation, now, durable)
    {
      var records :- VerifyJournal(store);
      if records == [] || records[|records| - 1].digest != before.digest {
        return Err(ConcurrentChange);
      }
      var state :- Capture(store.tables, cfg.storeId);
      var was := before.body.fields.state;
      if was == state {
        return Ok(before);
      }
      if state.summary.entryCount != was.summary.entryCount + 1 {
        return Err(LedgerDeltaInvalid);
      }
      if state.summary.versionCount != was.summary.versionCount + VersionDelta(mutation) {
        return Err(VersionDeltaInvalid);
      }
      if state.summary.headKind.None? || state.summary.headKind.value !in DeclaredEvents(mutation) {
        return Err(EventTypeInvalid);
      }
      r := Append(store, state, before.body.fields.sequence + 1, before.digest, mutation, now, durable);
    }

    /** Perform the operation that the pre-verification of `before` admitted, and authenticate its result. */
    method MutateFrom(store: StoreTables, before: Record, op: Operation, now: Name, durable: nat)
      returns (r: Verdict<Record>)
      requires Valid()
      modifies this, store
      ensures Reply(View(store), r) == Checkpoint.MutateFrom(old(View(store)), cfg, keyring, before, op, now, durable)
    {
      var wrote :- store.Perform(op, now, durable);
      r := Advance(store, before, MutationOf(op), now, if wrote then durable - 1 else durable);
      if r.Err? {
        r := Err(AdvanceFailedAfterStoreMutation(r.error));
      }
    }

    /** A reply that is the protocol's own has the outcome every call has. */
    lemma MutateReply(was: System, reply: Reply, op: Operation, now: Name, durable: nat)
      requires Valid()
      requires reply == Checkpoint.Mutate(was, cfg, keyring, op, now, durable)
      ensures Coherent(was, cfg) ==> CallOutcome(was, cfg, MutateCall(keyring, op, now, durable), reply)
    {
      if Coherent(was, cfg) {
        EveryCallOutcome(was, cfg, MutateCall(keyring, op, now, durable));
      }
    }

    /**
      One mutation under the authority's lock. Beside refining the protocol it keeps the files
      coherent, and leaves them untouched, verifying, or refusing every later call.
    */
    method Mutate(store: StoreTables, op: Operation, now: Name, durable: nat) returns (r: Verdict<Record>)
      requires Valid()
      modifies this, store
      ensures Reply(View(store), r) == Checkpoint.Mutate(old(View(store)), cfg, keyring, op, now, durable)
      ensures old(Coherent(View(store), cfg)) ==>
                CallOutcome(old(View(store)), cfg, MutateCall(keyring, op, now, durable), Reply(View(store), r))
    {
      ghost var was := View(store);
      var before := VerifyStore(store);
      if before.Err? {
        r := Err(before.error);
      } else {
        r := MutateFrom(store, before.value, op, now, durable);
      }
      MutateReply(was, Reply(View(store), r), op, now, durable);
    }
  }
}
