/** What each call of the checkpoint authority achieves, for every number of durable writes. */
module CheckpointOutcomes {
  import opened Names
  import opened Wrappers
  import opened HashChain
  import opened LearningStore
  import opened Checkpoint
  import opened CheckpointLaws
  import opened CheckpointRuns

  /** The record goes on top of the journal and authenticates `store`, signed under the active key. */
  predicate Authenticates(record: Record, sys: System, cfg: Config, keyring: Keyring, store: Store, kind: Mutation) {
    var fields := record.body.fields;
    && fields.sequence == |sys.journal| + 1 && record.previous == Head(sys.journal)
    && fields.state == StateOf(store, cfg.storeId) && fields.mutation == kind && fields.keyId == keyring.active
    && record.digest == Sha(record.body, record.previous)
  }

  predicate Fits(sys: System, cfg: Config) {
    JournalBytes(cfg, sys.journal) <= MAX_JOURNAL_BYTES
  }

  /** The size that decides is the sum of the lines, however the journal is cut. */
  lemma {:induction false} BytesAddUp(cfg: Config, earlier: seq<Record>, later: seq<Record>)
    ensures JournalBytes(cfg, earlier + later) == JournalBytes(cfg, earlier) + JournalBytes(cfg, later)
    ensures |later| == 1 ==> JournalBytes(cfg, later) == cfg.lineBytes(later[0])
  {
    if later != [] {
      var n := |later| - 1;
      BytesAddUp(cfg, earlier, later[..n]);
      assert (earlier + later)[..|earlier + later| - 1] == earlier + later[..n];
    } else {
      assert earlier + later == earlier;
    }
  }

  /**
    A call whose journal append, and the writes before it, are `writes` durable ones, and that then
    replaces the witness: short of both it fails and leaves a stuck system; with both it succeeds if
    the journal stays readable.
  */
  ghost predicate Completed(sys: System, cfg: Config, keyring: Keyring, record: Record, writes: nat,
                            durable: nat, reply: Reply) {
    && (durable < writes ==> reply.system.journal == sys.journal)
    && (durable >= writes ==> reply.system.journal == sys.journal + [record])
    && (durable == writes ==> Stuck(reply.system, cfg))
    && (durable > writes ==> if Fits(reply.system, cfg) then Healthy(reply.system, cfg) else Stuck(reply.system, cfg))
    && (reply.outcome.Ok? <==> durable > writes && Fits(reply.system, cfg))
    && (reply.outcome.Ok? ==> reply.outcome.value == record && VerifyStore(reply.system, cfg, keyring) == Ok(record))
  }

  /** What the first durable writes leave is verified by the very process that made them. */
  lemma CompletedVerifies(sys: System, cfg: Config, keyring: Keyring, journal: seq<Record>, record: Record)
    requires Healthy(sys, cfg) && Trusts(keyring, sys, cfg) && sys.journal == journal + [record] && ValidStore(sys.store)
    ensures VerifyStore(sys, cfg, keyring) == Ok(record)
  {
    VerifyStoreMeaning(sys, cfg, keyring);
  }

  lemma AppendCompletes(sys: System, cfg: Config, keyring: Keyring, mutation: Mutation, now: Name,
                        record: Record, durable: nat)
    requires keyring.Valid() && Coherent(sys, cfg) && Appendable(sys, cfg, record)
    requires record == MakeRecord(keyring, record.body.fields.state, |sys.journal| + 1, Head(sys.journal), mutation, now)
    ensures Completed(sys, cfg, keyring, record, 1, durable, AppendAndConfirm(sys, cfg, keyring, record, now, durable))
  {
    AppendAndConfirmEffect(sys, cfg, keyring, mutation, now, record, durable);
    var reply := AppendAndConfirm(sys, cfg, keyring, record, now, durable);
    if durable >= 2 && Fits(reply.system, cfg) {
      CompletedVerifies(reply.system, cfg, keyring, sys.journal, record);
    }
  }

  /** A first bootstrap on a good store writes record 1; a second is refused. */
  lemma BootstrapMeaning(sys: System, cfg: Config, keyring: Keyring, now: Name, durable: nat) returns (record: Record)
    requires Coherent(sys, cfg) && keyring.Valid()
    ensures var reply := Bootstrap(sys, cfg, keyring, now, durable);
            && reply.system.store == sys.store
            && if sys.journal != [] then reply.system == sys && reply.outcome.Err?
               else
                 && Authenticates(record, sys, cfg, keyring, sys.store, Bootstrapped)
                 && Completed(sys, cfg, keyring, record, 1, durable, reply)
  {
    record := MakeRecord(keyring, StateOf(sys.store, cfg.storeId), 1, Genesis, Bootstrapped, now);
    BootstrapEffect(sys, cfg, keyring, now, durable);
    if sys.journal == [] {
      assert Bootstrap(sys, cfg, keyring, now, durable) == AppendAndConfirm(sys, cfg, keyring, record, now, durable);
      assert Appendable(sys, cfg, record);
      AppendCompletes(sys, cfg, keyring, Bootstrapped, now, record, durable);
    }
  }

  /**
    A rotation by a process that verifies the head: nothing to do if the head is signed under the
    active key. Otherwise one record is added that signs the same store under the active key.
  */
  lemma RotationMeaning(sys: System, cfg: Config, keyring: Keyring, now: Name, durable: nat) returns (record: Record)
    requires Coherent(sys, cfg) && keyring.Valid() && VerifyStore(sys, cfg, keyring).Ok?
    ensures var reply := RotateKey(sys, cfg, keyring, now, durable);
            && reply.system.store == sys.store
            && sys.journal != []
            && if Last(sys.journal).body.fields.keyId == keyring.active
               then reply.system == sys && reply.outcome == Ok(Last(sys.journal))
               else
                 && Authenticates(record, sys, cfg, keyring, sys.store, KeyRotated)
                 && Completed(sys, cfg, keyring, record, 1, durable, reply)
  {
    VerifyStoreMeaning(sys, cfg, keyring);
    record := NextRecord(sys, cfg, keyring, sys.store, KeyRotated, now);
    RotateEffect(sys, cfg, keyring, now, durable);
    if Last(sys.journal).body.fields.keyId != keyring.active {
      RotationFits(sys, cfg, keyring, now);
      assert RotateKey(sys, cfg, keyring, now, durable) == AppendAndConfirm(sys, cfg, keyring, record, now, durable);
      AppendCompletes(sys, cfg, keyring, KeyRotated, now, record, durable);
    }
  }

  /**
    A mutation by a process that verifies the head. If the store refuses it or it changes nothing,
    all stays, and it succeeds exactly in the second case, with the present head. Otherwise the
    store is committed first, then authenticated by one record of the declared kind.
  */
  lemma MutationMeaning(sys: System, cfg: Config, keyring: Keyring, op: Operation, now: Name, durable: nat)
    returns (record: Record)
    requires Coherent(sys, cfg) && keyring.Valid() && VerifyStore(sys, cfg, keyring).Ok?
    ensures var reply, done := Mutate(sys, cfg, keyring, op, now, durable), Perform(sys.store, op, now);
            && sys.journal != []
            && if done.Err? then reply == Reply(sys, Err(OperationRefused(done.error)))
               else if done.value == sys.store then reply == Reply(sys, Ok(Last(sys.journal)))
               else
                 && Authenticates(record, sys, cfg, keyring, done.value, KindOf(op))
                 && Landed(sys, cfg, keyring, done.value, record, durable, reply)
  {
    if Commits(sys, op, now) {
      record := CommitMeaning(sys, cfg, keyring, op, now, durable);
    } else {
      RefusalMeaning(sys, cfg, keyring, op, now, durable);
      record := MakeRecord(keyring, StateOf(sys.store, cfg.storeId), 1, Genesis, Bootstrapped, now);
    }
  }

  /** The store is the first of the three writes. */
  ghost predicate Landed(sys: System, cfg: Config, keyring: Keyring, store: Store, record: Record,
                         durable: nat, reply: Reply) {
    && reply.system.store == (if durable == 0 then sys.store else store)
    && (durable == 1 ==> Stuck(reply.system, cfg))
    && Completed(sys, cfg, keyring, record, 2, durable, reply)
    && (reply.outcome.Err? ==>
          if durable == 0 then reply.outcome.error.Interrupted? else reply.outcome.error.AdvanceFailedAfterStoreMutation?)
  }

  lemma RefusalMeaning(sys: System, cfg: Config, keyring: Keyring, op: Operation, now: Name, durable: nat)
    requires Coherent(sys, cfg) && keyring.Valid() && VerifyStore(sys, cfg, keyring).Ok? && !Commits(sys, op, now)
    ensures sys.journal != []
    ensures var done := Perform(sys.store, op, now);
            Mutate(sys, cfg, keyring, op, now, durable) ==
            Reply(sys, if done.Err? then Err(OperationRefused(done.error)) else Ok(Last(sys.journal)))
  {
    VerifyStoreMeaning(sys, cfg, keyring);
    MutateWithoutEffect(sys, cfg, keyring, op, now, durable);
  }

  lemma CommitMeaning(sys: System, cfg: Config, keyring: Keyring, op: Operation, now: Name, durable: nat)
    returns (record: Record)
    requires Coherent(sys, cfg) && keyring.Valid() && VerifyStore(sys, cfg, keyring).Ok? && Commits(sys, op, now)
    ensures sys.journal != []
    ensures Authenticates(record, sys, cfg, keyring, Perform(sys.store, op, now).value, KindOf(op))
    ensures Landed(sys, cfg, keyring, Perform(sys.store, op, now).value, record, durable,
                   Mutate(sys, cfg, keyring, op, now, durable))
  {
    var store := MutateCommits(sys, cfg, keyring, op, now, durable);
    record := NextRecord(sys, cfg, keyring, store, MutationOf(op), now);
    CommitLands(sys, cfg, keyring, store, MutationOf(op), now, durable);
  }

  lemma CommitLands(sys: System, cfg: Config, keyring: Keyring, store: Store, kind: Mutation, now: Name, durable: nat)
    requires Coherent(sys, cfg) && keyring.Valid() && Healthy(sys, cfg) && Trusts(keyring, sys, cfg)
    requires Committed(sys.store, store, kind)
    ensures Landed(sys, cfg, keyring, store, NextRecord(sys, cfg, keyring, store, kind, now), durable,
                   CommitAndAdvance(sys, cfg, keyring, Last(sys.journal), store, kind, now, durable))
  {
    CommitEffect(sys, cfg, keyring, store, kind, now, durable);
    FailureIsNamed(sys, cfg, keyring, Last(sys.journal), store, kind, now, durable);
    CommitCompletes(sys, cfg, keyring, store, NextRecord(sys, cfg, keyring, store, kind, now), durable,
                    CommitAndAdvance(sys, cfg, keyring, Last(sys.journal), store, kind, now, durable));
  }

  /** The kind of record that authenticates an operation. */
  function KindOf(op: Operation): Mutation {
    if op.Stage? then Staged else if op.Promote? then Promoted else if op.Archive? then Archived else RolledBack
  }

  /** Once the store is committed, a failure says so. */
  lemma FailureIsNamed(
    sys: System, cfg: Config, keyring: Keyring, before: Record, store: Store, kind: Mutation, now: Name, durable: nat)
    requires keyring.Valid() && store != sys.store
    ensures var reply := CommitAndAdvance(sys, cfg, keyring, before, store, kind, now, durable);
            reply.outcome.Err? ==>
              if durable == 0 then reply.outcome.error.Interrupted? else reply.outcome.error.AdvanceFailedAfterStoreMutation?
  {
  }

  lemma CommitCompletes(sys: System, cfg: Config, keyring: Keyring, store: Store, record: Record, durable: nat,
                        reply: Reply)
    requires CommitOutcome(sys, cfg, keyring, store, record, durable, reply) && ValidStore(store)
    requires reply.outcome.Err? ==>
               if durable == 0 then reply.outcome.error.Interrupted? else reply.outcome.error.AdvanceFailedAfterStoreMutation?
    ensures Landed(sys, cfg, keyring, store, record, durable, reply)
  {
    if durable >= 3 && Fits(reply.system, cfg) {
      CompletedVerifies(reply.system, cfg, keyring, sys.journal, record);
    }
  }
}
