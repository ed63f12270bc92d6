/** Crash safety, accounting and freezing over whole runs of the checkpoint protocol. */
module CheckpointRuns {
  import opened Names
  import opened Wrappers
  import opened HashChain
  import opened LearningStore
  import opened Checkpoint
  import opened CheckpointLaws

  /** One call by some process; each process brings its own keyring and may die part-way. */
  datatype Call =
    | BootstrapCall(keyring: Keyring, now: Name, durable: nat)
    | VerifyCall(keyring: Keyring)
    | RotateCall(keyring: Keyring, now: Name, durable: nat)
    | MutateCall(keyring: Keyring, op: Operation, now: Name, durable: nat)
  {
    predicate Valid() {
      keyring.Valid()
    }
  }

  function Execute(sys: System, cfg: Config, call: Call): Reply
    requires call.Valid()
  {
    match call
    case BootstrapCall(keyring, now, durable) => Bootstrap(sys, cfg, keyring, now, durable)
    case VerifyCall(keyring) => Reply(sys, VerifyStore(sys, cfg, keyring))
    case RotateCall(keyring, now, durable) => RotateKey(sys, cfg, keyring, now, durable)
    case MutateCall(keyring, op, now, durable) => Mutate(sys, cfg, keyring, op, now, durable)
  }

  predicate ValidCalls(calls: seq<Call>) {
    forall i | 0 <= i < |calls| :: calls[i].Valid()
  }

  function Run(sys: System, cfg: Config, calls: seq<Call>): System
    requires ValidCalls(calls)
  {
    if calls == [] then sys
    else
      var n := |calls| - 1;
      Execute(Run(sys, cfg, calls[..n]), cfg, calls[n]).system
  }

  /** The later files hold everything the earlier ones held. */
  predicate Grows(later: System, earlier: System) {
    Extends(later.store, earlier.store) && earlier.journal <= later.journal
  }

  // ---------- Single calls ----------

  lemma BootstrapEffect(sys: System, cfg: Config, keyring: Keyring, now: Name, durable: nat)
    requires Coherent(sys, cfg) && keyring.Valid()
    ensures var after := Bootstrap(sys, cfg, keyring, now, durable).system;
            Coherent(after, cfg) && Grows(after, sys) && after.store == sys.store
    ensures sys.journal != [] ==>
              Bootstrap(sys, cfg, keyring, now, durable).system == sys &&
              Bootstrap(sys, cfg, keyring, now, durable).outcome.Err?
  {
    if sys.journal == [] {
      var record := MakeRecord(keyring, StateOf(sys.store, cfg.storeId), 1, Genesis, Bootstrapped, now);
      BootstrapAppends(sys, cfg, keyring, record, now, durable);
      FirstBootstrap(sys, cfg, keyring, record, now, durable);
    }
  }

  lemma BootstrapAppends(sys: System, cfg: Config, keyring: Keyring, record: Record, now: Name, durable: nat)
    requires keyring.Valid() && sys.journal == []
    requires record == MakeRecord(keyring, StateOf(sys.store, cfg.storeId), 1, Genesis, Bootstrapped, now)
    ensures var reply := Bootstrap(sys, cfg, keyring, now, durable);
            reply.system == sys || reply == AppendAndConfirm(sys, cfg, keyring, record, now, durable)
  {
  }

  lemma FirstBootstrap(sys: System, cfg: Config, keyring: Keyring, record: Record, now: Name, durable: nat)
    requires Coherent(sys, cfg) && keyring.Valid() && sys.journal == []
    requires record == MakeRecord(keyring, StateOf(sys.store, cfg.storeId), 1, Genesis, Bootstrapped, now)
    ensures var after := AppendAndConfirm(sys, cfg, keyring, record, now, durable).system;
            Coherent(after, cfg) && Grows(after, sys) && after.store == sys.store
  {
    assert Appendable(sys, cfg, record);
    AppendRecordKeepsCoherent(sys, cfg, keyring, Bootstrapped, now, record, durable);
    ConfirmChangesNothing(sys, cfg, keyring, record, now, durable);
  }

  /** A completed append succeeds exactly when the grown journal is still readable. */
  lemma AppendAndConfirmEffect(
    sys: System, cfg: Config, keyring: Keyring, mutation: Mutation, now: Name, record: Record, durable: nat)
    requires keyring.Valid() && Coherent(sys, cfg) && Appendable(sys, cfg, record)
    requires record == MakeRecord(keyring, record.body.fields.state, |sys.journal| + 1, Head(sys.journal), mutation, now)
    ensures var reply := AppendAndConfirm(sys, cfg, keyring, record, now, durable);
            && Coherent(reply.system, cfg) && reply.system.store == sys.store
            && (durable == 0 ==> reply.system == sys)
            && (durable >= 1 ==> reply.system.journal == sys.journal + [record])
            && (durable == 1 ==> !NamesHead(reply.system, cfg))
            && (durable >= 2 ==> NamesHead(reply.system, cfg) && StoreCurrent(reply.system, cfg)
                                 && Trusts(keyring, reply.system, cfg))
            && (reply.outcome.Ok? <==> durable >= 2 && JournalBytes(cfg, reply.system.journal) <= MAX_JOURNAL_BYTES)
            && (reply.outcome.Ok? ==> reply.outcome.value == record)
  {
    AppendRecordKeepsCoherent(sys, cfg, keyring, mutation, now, record, durable);
    ConfirmChangesNothing(sys, cfg, keyring, record, now, durable);
    VerifyStoreMeaning(AppendRecord(sys, cfg, keyring, record, now, durable).system, cfg, keyring);
  }

  lemma RotationFits(sys: System, cfg: Config, keyring: Keyring, now: Name)
    requires Coherent(sys, cfg) && keyring.Valid() && sys.journal != [] && StoreCurrent(sys, cfg)
    requires Last(sys.journal).body.fields.keyId != keyring.active
    ensures Appendable(sys, cfg, NextRecord(sys, cfg, keyring, sys.store, KeyRotated, now))
  {
  }

  lemma RotateEffect(sys: System, cfg: Config, keyring: Keyring, now: Name, durable: nat)
    requires Coherent(sys, cfg) && keyring.Valid()
    ensures var after := RotateKey(sys, cfg, keyring, now, durable).system;
            Coherent(after, cfg) && Grows(after, sys) && after.store == sys.store
    ensures VerifyStore(sys, cfg, keyring).Err? ==>
              RotateKey(sys, cfg, keyring, now, durable).system == sys &&
              RotateKey(sys, cfg, keyring, now, durable).outcome.Err?
  {
    VerifyStoreMeaning(sys, cfg, keyring);
    if VerifyStore(sys, cfg, keyring).Ok? && Last(sys.journal).body.fields.keyId != keyring.active {
      var record := NextRecord(sys, cfg, keyring, sys.store, KeyRotated, now);
      RotationFits(sys, cfg, keyring, now);
      assert RotateKey(sys, cfg, keyring, now, durable) == AppendAndConfirm(sys, cfg, keyring, record, now, durable);
      AppendAndConfirmEffect(sys, cfg, keyring, KeyRotated, now, record, durable);
    }
  }

  /** The record a committed operation is authenticated by. */
  function NextRecord(sys: System, cfg: Config, keyring: Keyring, store: Store, kind: Mutation, now: Name): Record
    requires keyring.Valid()
  {
    MakeRecord(keyring, StateOf(store, cfg.storeId), |sys.journal| + 1, Head(sys.journal), kind, now)
  }

  lemma NextRecordFits(sys: System, cfg: Config, keyring: Keyring, store: Store, kind: Mutation, now: Name)
    requires Coherent(sys, cfg) && keyring.Valid()
    requires sys.journal != [] && StoreCurrent(sys, cfg)
    requires Committed(sys.store, store, kind)
    ensures Coherent(sys.(store := store), cfg)
    ensures !StoreCurrent(sys.(store := store), cfg)
    ensures Appendable(sys.(store := store), cfg, NextRecord(sys, cfg, keyring, store, kind, now))
  {
    HistorySurvivesGrowth(sys, cfg, store);
    var ahead := sys.(store := store);
    if NamesHead(ahead, cfg) {
      assert NamesHead(sys, cfg);
      var key :| SignedBy(sys, cfg, key);
      assert SignedBy(ahead, cfg, key);
    }
  }

  lemma JournalIgnoresStore(sys: System, cfg: Config, keyring: Keyring, store: Store)
    ensures VerifyJournal(sys.(store := store), cfg, keyring) == VerifyJournal(sys, cfg, keyring)
  {
  }

  /** How a failed advance is reported after the store has committed. */
  function Reported(reply: Reply): Reply {
    if reply.outcome.Err? then Reply(reply.system, Err(AdvanceFailedAfterStoreMutation(reply.outcome.error))) else reply
  }

  /** What an advance finds when it runs right after the commit of `store` on a verified system. */
  ghost predicate ReadyToAdvance(sys: System, cfg: Config, keyring: Keyring, store: Store, kind: Mutation) {
    && sys.journal != [] && Committed(sys.store, store, kind)
    && VerifyJournal(sys.(store := store), cfg, keyring) == Ok(sys.journal)
    && Capture(store, cfg.storeId) == Ok(StateOf(store, cfg.storeId))
    && var head := Last(sys.journal);
    && head.body.fields.state == StateOf(sys.store, cfg.storeId)
    && head.body.fields.sequence == |sys.journal|
  }

  lemma VerifiedIsReady(sys: System, cfg: Config, keyring: Keyring, store: Store, kind: Mutation)
    requires Healthy(sys, cfg) && Trusts(keyring, sys, cfg) && Committed(sys.store, store, kind) && ValidStore(sys.store)
    ensures ReadyToAdvance(sys, cfg, keyring, store, kind)
  {
    VerifyJournalMeaning(sys, cfg, keyring);
    JournalIgnoresStore(sys, cfg, keyring, store);
  }

  /** After a committed operation the deltas are as declared, so the advance goes on to append. */
  lemma CommitAppends(
    sys: System, cfg: Config, keyring: Keyring, store: Store, kind: Mutation, now: Name, durable: nat, done: Reply)
    requires keyring.Valid() && durable >= 1 && ReadyToAdvance(sys, cfg, keyring, store, kind)
    requires done == AppendAndConfirm(sys.(store := store), cfg, keyring, NextRecord(sys, cfg, keyring, store, kind, now),
                                      now, durable - 1)
    ensures CommitAndAdvance(sys, cfg, keyring, Last(sys.journal), store, kind, now, durable) == Reported(done)
  {
  }

  /** Where `durable` writes leave the commit of `store` authenticated by `record`. */
  ghost predicate CommitOutcome(
    sys: System, cfg: Config, keyring: Keyring, store: Store, record: Record, durable: nat, reply: Reply)
  {
    && Coherent(reply.system, cfg) && Grows(reply.system, sys)
    && (durable == 0 ==> reply.system == sys)
    && (durable >= 1 ==> reply.system.store == store)
    && (durable == 1 ==> reply.system == sys.(store := store) && reply.system.journal != []
                         && !StoreCurrent(reply.system, cfg))
    && (durable >= 2 ==> reply.system.journal == sys.journal + [record])
    && (durable == 2 ==> !NamesHead(reply.system, cfg))
    && (durable >= 3 ==> NamesHead(reply.system, cfg) && StoreCurrent(reply.system, cfg)
                         && Trusts(keyring, reply.system, cfg))
    && (reply.outcome.Ok? <==> durable >= 3 && JournalBytes(cfg, reply.system.journal) <= MAX_JOURNAL_BYTES)
    && (reply.outcome.Ok? ==> reply.outcome.value == record)
  }

  lemma AppendOutcome(
    sys: System, cfg: Config, keyring: Keyring, store: Store, kind: Mutation, now: Name, durable: nat, done: Reply)
    requires Coherent(sys, cfg) && keyring.Valid() && Healthy(sys, cfg) && Committed(sys.store, store, kind)
    requires durable >= 1
    requires done == AppendAndConfirm(sys.(store := store), cfg, keyring, NextRecord(sys, cfg, keyring, store, kind, now),
                                      now, durable - 1)
    ensures CommitOutcome(sys, cfg, keyring, store, NextRecord(sys, cfg, keyring, store, kind, now), durable, done)
  {
    NextRecordFits(sys, cfg, keyring, store, kind, now);
    AppendAndConfirmEffect(sys.(store := store), cfg, keyring, kind, now, NextRecord(sys, cfg, keyring, store, kind, now),
                           durable - 1);
  }

  lemma CommitEffect(
    sys: System, cfg: Config, keyring: Keyring, store: Store, kind: Mutation, now: Name, durable: nat)
    requires Coherent(sys, cfg) && keyring.Valid()
    requires Healthy(sys, cfg) && Trusts(keyring, sys, cfg)
    requires Committed(sys.store, store, kind)
    ensures CommitOutcome(sys, cfg, keyring, store, NextRecord(sys, cfg, keyring, store, kind, now), durable,
              CommitAndAdvance(sys, cfg, keyring, Last(sys.journal), store, kind, now, durable))
  {
    if durable >= 1 {
      var record := NextRecord(sys, cfg, keyring, store, kind, now);
      var done := AppendAndConfirm(sys.(store := store), cfg, keyring, record, now, durable - 1);
      VerifiedIsReady(sys, cfg, keyring, store, kind);
      CommitAppends(sys, cfg, keyring, store, kind, now, durable, done);
      AppendOutcome(sys, cfg, keyring, store, kind, now, durable, done);
      ReportingKeepsOutcome(sys, cfg, keyring, store, record, durable, done);
    } else {
      NothingCommitted(sys, cfg, keyring, store, kind, now);
    }
  }

  lemma ReportingKeepsOutcome(
    sys: System, cfg: Config, keyring: Keyring, store: Store, record: Record, durable: nat, done: Reply)
    requires durable >= 1 && CommitOutcome(sys, cfg, keyring, store, record, durable, done)
    ensures CommitOutcome(sys, cfg, keyring, store, record, durable, Reported(done))
  {
  }

  lemma NothingCommitted(sys: System, cfg: Config, keyring: Keyring, store: Store, kind: Mutation, now: Name)
    requires Coherent(sys, cfg) && keyring.Valid() && sys.journal != [] && Committed(sys.store, store, kind)
    ensures CommitOutcome(sys, cfg, keyring, store, NextRecord(sys, cfg, keyring, store, kind, now), 0,
              CommitAndAdvance(sys, cfg, keyring, Last(sys.journal), store, kind, now, 0))
  {
  }

  predicate Commits(sys: System, op: Operation, now: Name) {
    Perform(sys.store, op, now).Ok? && Perform(sys.store, op, now).value != sys.store
  }

  /** A mutation that gets past verification and commits is `CommitAndAdvance` of its result. */
  lemma MutateCommits(sys: System, cfg: Config, keyring: Keyring, op: Operation, now: Name, durable: nat)
    returns (store: Store)
    requires Coherent(sys, cfg) && keyring.Valid() && VerifyStore(sys, cfg, keyring).Ok? && Commits(sys, op, now)
    ensures store == Perform(sys.store, op, now).value
    ensures Committed(sys.store, store, MutationOf(op))
    ensures Healthy(sys, cfg) && Trusts(keyring, sys, cfg)
    ensures Mutate(sys, cfg, keyring, op, now, durable) ==
            CommitAndAdvance(sys, cfg, keyring, Last(sys.journal), store, MutationOf(op), now, durable)
  {
    store := Perform(sys.store, op, now).value;
    VerifyStoreMeaning(sys, cfg, keyring);
    OperationMatchesDeclaration(sys.store, op, now);
  }

  /** A refused or void operation changes nothing, and leaves the head where it was. */
  lemma MutateWithoutEffect(sys: System, cfg: Config, keyring: Keyring, op: Operation, now: Name, durable: nat)
    requires keyring.Valid()
    requires VerifyStore(sys, cfg, keyring).Err? || !Commits(sys, op, now)
    ensures var reply := Mutate(sys, cfg, keyring, op, now, durable);
            && reply.system == sys
            && (reply.outcome.Ok? <==> VerifyStore(sys, cfg, keyring).Ok? && Perform(sys.store, op, now).Ok?)
            && (reply.outcome.Ok? ==> reply.outcome == VerifyStore(sys, cfg, keyring))
  {
  }

  lemma ExecuteKeepsCoherent(sys: System, cfg: Config, call: Call)
    requires Coherent(sys, cfg) && call.Valid()
    ensures Coherent(Execute(sys, cfg, call).system, cfg)
    ensures Grows(Execute(sys, cfg, call).system, sys)
  {
    match call
    case BootstrapCall(keyring, now, durable) => BootstrapEffect(sys, cfg, keyring, now, durable);
    case VerifyCall(keyring) =>
    case RotateCall(keyring, now, durable) => RotateEffect(sys, cfg, keyring, now, durable);
    case MutateCall(keyring, op, now, durable) =>
      if VerifyStore(sys, cfg, keyring).Ok? && Commits(sys, op, now) {
        var store := MutateCommits(sys, cfg, keyring, op, now, durable);
        CommitEffect(sys, cfg, keyring, store, MutationOf(op), now, durable);
      } else {
        MutateWithoutEffect(sys, cfg, keyring, op, now, durable);
      }
  }

  lemma {:induction false} RunKeepsCoherent(sys: System, cfg: Config, calls: seq<Call>)
    requires Coherent(sys, cfg) && ValidCalls(calls)
    ensures Coherent(Run(sys, cfg, calls), cfg)
    ensures Grows(Run(sys, cfg, calls), sys)
  {
    if calls != [] {
      var n := |calls| - 1;
      RunKeepsCoherent(sys, cfg, calls[..n]);
      ExecuteKeepsCoherent(Run(sys, cfg, calls[..n]), cfg, calls[n]);
    }
  }

  // ---------- Crash safety ----------

  /** Some file disagrees with the others, or the journal has outgrown its reader. */
  predicate Stuck(sys: System, cfg: Config) {
    && sys.journal != []
    && !(JournalBytes(cfg, sys.journal) <= MAX_JOURNAL_BYTES && NamesHead(sys, cfg) && StoreCurrent(sys, cfg))
  }

  /** A stuck system answers every call, by any process, with an error and is not changed by it. */
  lemma StuckRefusesEverything(sys: System, cfg: Config, call: Call)
    requires Stuck(sys, cfg) && call.Valid()
    ensures Execute(sys, cfg, call).system == sys
    ensures Execute(sys, cfg, call).outcome.Err?
  {
    VerifyStoreMeaning(sys, cfg, call.keyring);
  }

  lemma {:induction false} StuckIsAbsorbing(sys: System, cfg: Config, calls: seq<Call>)
    requires Stuck(sys, cfg) && ValidCalls(calls)
    ensures Run(sys, cfg, calls) == sys
  {
    if calls != [] {
      var n := |calls| - 1;
      StuckIsAbsorbing(sys, cfg, calls[..n]);
      StuckRefusesEverything(sys, cfg, calls[n]);
    }
  }

  /** A healthy system verifies for every process that holds the signing key under the head's key id. */
  lemma HealthyVerifies(sys: System, cfg: Config) returns (key: Name)
    requires Coherent(sys, cfg) && Healthy(sys, cfg)
    ensures forall keyring: Keyring | keyring.Valid() ::
              VerifyStore(sys, cfg, keyring).Ok? <==>
                var id := Last(sys.journal).body.fields.keyId; id in keyring.keys && keyring.keys[id] == key
  {
    key :| SignedBy(sys, cfg, key);
    forall keyring: Keyring | keyring.Valid()
      ensures VerifyStore(sys, cfg, keyring).Ok? <==>
                var id := Last(sys.journal).body.fields.keyId; id in keyring.keys && keyring.keys[id] == key
    {
      VerifyStoreMeaning(sys, cfg, keyring);
    }
  }

  lemma SomeoneVerifies(sys: System, cfg: Config)
    requires Coherent(sys, cfg) && Healthy(sys, cfg)
    ensures exists keyring: Keyring :: keyring.Valid() && VerifyStore(sys, cfg, keyring).Ok?
  {
    var key := HealthyVerifies(sys, cfg);
    var id := Last(sys.journal).body.fields.keyId;
    var keyring := Keyring(map[id := key], id);
    assert keyring.Valid() && VerifyStore(sys, cfg, keyring).Ok?;
  }

  /**
    Crash safety: wherever processes die, the files are never bootstrapped, or verify, or
    refuse every later call without changing.
  */
  lemma CrashSafety(start: System, cfg: Config, calls: seq<Call>)
    requires ValidStore(start.store) && Unbootstrapped(start) && ValidCalls(calls)
    ensures var sys := Run(start, cfg, calls);
            && Coherent(sys, cfg)
            && (Unbootstrapped(sys) || Healthy(sys, cfg) || Stuck(sys, cfg))
            && (Unbootstrapped(sys) ==> sys == start)
            && (Healthy(sys, cfg) ==> exists keyring: Keyring :: keyring.Valid() && VerifyStore(sys, cfg, keyring).Ok?)
            && (Stuck(sys, cfg) ==>
                  && (forall call: Call | call.Valid() :: Execute(sys, cfg, call).outcome.Err?)
                  && (forall more: seq<Call> | ValidCalls(more) :: Run(sys, cfg, more) == sys))
  {
    assert Coherent(start, cfg);
    RunKeepsCoherent(start, cfg, calls);
    var sys := Run(start, cfg, calls);
    if Unbootstrapped(sys) {
      UnbootstrappedIsUntouched(start, cfg, calls);
    }
    if Healthy(sys, cfg) {
      SomeoneVerifies(sys, cfg);
    }
    if Stuck(sys, cfg) {
      forall call: Call | call.Valid() ensures Execute(sys, cfg, call).outcome.Err? {
        StuckRefusesEverything(sys, cfg, call);
      }
      forall more: seq<Call> | ValidCalls(more) ensures Run(sys, cfg, more) == sys {
        StuckIsAbsorbing(sys, cfg, more);
      }
    }
  }

  /** Nothing can be mutated through the authority before the bootstrap record exists. */
  lemma {:induction false} UnbootstrappedIsUntouched(start: System, cfg: Config, calls: seq<Call>)
    requires Coherent(start, cfg) && ValidCalls(calls)
    requires Unbootstrapped(Run(start, cfg, calls))
    ensures Run(start, cfg, calls) == start
  {
    if calls != [] {
      var n := |calls| - 1;
      var before := Run(start, cfg, calls[..n]);
      RunKeepsCoherent(start, cfg, calls[..n]);
      ExecuteKeepsCoherent(before, cfg, calls[n]);
      VerifyStoreMeaning(before, cfg, calls[n].keyring);
      UnbootstrappedIsUntouched(start, cfg, calls[..n]);
      if calls[n].BootstrapCall? {
        BootstrapOutcome(before, cfg, calls[n].keyring, calls[n].now, calls[n].durable);
      }
    }
  }

  lemma BootstrapOutcome(sys: System, cfg: Config, keyring: Keyring, now: Name, durable: nat)
    requires Coherent(sys, cfg) && keyring.Valid() && sys.journal == []
    ensures var after := Bootstrap(sys, cfg, keyring, now, durable).system;
            if durable == 0 then after == sys
            else if durable == 1 then Stuck(after, cfg)
            else if JournalBytes(cfg, after.journal) <= MAX_JOURNAL_BYTES then Healthy(after, cfg) else Stuck(after, cfg)
  {
    var record := MakeRecord(keyring, StateOf(sys.store, cfg.storeId), 1, Genesis, Bootstrapped, now);
    AppendRecordKeepsCoherent(sys, cfg, keyring, Bootstrapped, now, record, durable);
    ConfirmChangesNothing(sys, cfg, keyring, record, now, durable);
  }

  /** Exactly which interrupted mutations wedge a healthy system. */
  lemma InterruptionOutcome(sys: System, cfg: Config, keyring: Keyring, op: Operation, now: Name, durable: nat)
    requires Coherent(sys, cfg) && keyring.Valid() && VerifyStore(sys, cfg, keyring).Ok?
    ensures var after := Mutate(sys, cfg, keyring, op, now, durable).system;
            if !Commits(sys, op, now) || durable == 0 then after == sys && Healthy(after, cfg)
            else if durable <= 2 then Stuck(after, cfg)
            else if JournalBytes(cfg, after.journal) <= MAX_JOURNAL_BYTES then Healthy(after, cfg)
            else Stuck(after, cfg)
  {
    VerifyStoreMeaning(sys, cfg, keyring);
    if Commits(sys, op, now) {
      var store := MutateCommits(sys, cfg, keyring, op, now, durable);
      CommitEffect(sys, cfg, keyring, store, MutationOf(op), now, durable);
    } else {
      MutateWithoutEffect(sys, cfg, keyring, op, now, durable);
    }
  }

  /** What every caller may rely on: coherent files that were untouched, verify, or refuse all later calls. */
  ghost predicate CallOutcome(sys: System, cfg: Config, call: Call, reply: Reply)
    requires call.Valid()
  {
    && reply == Execute(sys, cfg, call)
    && Coherent(reply.system, cfg) && Grows(reply.system, sys)
    && (reply.system == sys || Healthy(reply.system, cfg) || Stuck(reply.system, cfg))
    && (Stuck(sys, cfg) ==> reply.system == sys && reply.outcome.Err?)
  }

  lemma EveryCallOutcome(sys: System, cfg: Config, call: Call)
    requires Coherent(sys, cfg) && call.Valid()
    ensures CallOutcome(sys, cfg, call, Execute(sys, cfg, call))
  {
    ExecuteKeepsCoherent(sys, cfg, call);
    if Stuck(sys, cfg) {
      StuckRefusesEverything(sys, cfg, call);
    }
  }

  // ---------- Accounting ----------

  function CountOf(journal: seq<Record>, kind: Mutation): nat {
    if journal == [] then 0
    else CountOf(journal[..|journal| - 1], kind) + if Last(journal).body.fields.mutation == kind then 1 else 0
  }

  predicate HistoryLinks(journal: seq<Record>) {
    && (journal != [] ==> journal[0].body.fields.mutation.Bootstrapped?)
    && forall i | 0 <= i < |journal| - 1 :: Follows(journal[i], journal[i + 1])
  }

  lemma {:induction false} HistoryAddsUp(journal: seq<Record>)
    requires journal != [] && HistoryLinks(journal)
    ensures var first := journal[0].body.fields.state.summary;
            var last := Last(journal).body.fields.state.summary;
            && last.entryCount == first.entryCount + CountOf(journal, Staged) + CountOf(journal, Promoted)
                                  + CountOf(journal, Archived) + CountOf(journal, RolledBack)
            && last.versionCount == first.versionCount + CountOf(journal, Staged) + CountOf(journal, Promoted)
            && CountOf(journal, Bootstrapped) == 1
            && |journal| == 1 + (last.entryCount - first.entryCount) + CountOf(journal, KeyRotated)
  {
    var n := |journal| - 1;
    if n > 0 {
      assert Follows(journal[n - 1], journal[n]);
      HistoryAddsUp(journal[..n]);
    } else {
      assert journal[..0] == [];
    }
  }

  /**
    Conservation over every reachable journal: the head's counts are the bootstrap counts plus
    one ledger entry per stage, promote, archive and rollback record, and one version per stage
    and promote record; and every record authenticates a past generation of today's tables.
  */
  lemma JournalAccounting(start: System, cfg: Config, calls: seq<Call>)
    requires ValidStore(start.store) && Unbootstrapped(start) && ValidCalls(calls)
    requires Run(start, cfg, calls).journal != []
    ensures var sys := Run(start, cfg, calls);
            var first := sys.journal[0].body.fields.state.summary;
            var last := Last(sys.journal).body.fields.state.summary;
            && first.entryCount == |start.store.ledger| && first.versionCount == |start.store.versions|
            && last.entryCount == first.entryCount + CountOf(sys.journal, Staged) + CountOf(sys.journal, Promoted)
                                  + CountOf(sys.journal, Archived) + CountOf(sys.journal, RolledBack)
            && last.versionCount == first.versionCount + CountOf(sys.journal, Staged) + CountOf(sys.journal, Promoted)
            && |sys.journal| == 1 + (last.entryCount - first.entryCount) + CountOf(sys.journal, KeyRotated)
            && (forall i | 0 <= i < |sys.journal| - 1 :: Follows(sys.journal[i], sys.journal[i + 1]))
            && (forall i | 0 <= i < |sys.journal| :: RecordsPast(sys.store, cfg, sys.journal[i]))
  {
    assert Coherent(start, cfg);
    RunKeepsCoherent(start, cfg, calls);
    HistoryAddsUp(Run(start, cfg, calls).journal);
    FirstRecordIsBootstrap(start, cfg, calls);
  }

  lemma {:induction false} FirstRecordIsBootstrap(start: System, cfg: Config, calls: seq<Call>)
    requires Coherent(start, cfg) && Unbootstrapped(start) && ValidCalls(calls)
    requires Run(start, cfg, calls).journal != []
    ensures Run(start, cfg, calls).journal[0].body.fields.state == StateOf(start.store, cfg.storeId)
  {
    var n := |calls| - 1;
    var before := Run(start, cfg, calls[..n]);
    RunKeepsCoherent(start, cfg, calls[..n]);
    if before.journal != [] {
      FirstRecordIsBootstrap(start, cfg, calls[..n]);
      ExecuteKeepsCoherent(before, cfg, calls[n]);
    } else {
      UnbootstrappedIsUntouched(start, cfg, calls[..n]);
      VerifyStoreMeaning(before, cfg, calls[n].keyring);
      if calls[n].BootstrapCall? {
        var record := MakeRecord(calls[n].keyring, StateOf(start.store, cfg.storeId), 1, Genesis, Bootstrapped, calls[n].now);
        ConfirmChangesNothing(start, cfg, calls[n].keyring, record, calls[n].now, calls[n].durable);
      }
    }
  }

  lemma StoreInBetween(first: System, middle: System, last: System, cfg: Config, p: Keyring, q: Keyring)
    requires Grows(middle, first) && Grows(last, middle)
    requires VerifyStore(first, cfg, p).Ok? && VerifyStore(last, cfg, q).Ok?
    requires VerifyStore(first, cfg, p).value.digest == VerifyStore(last, cfg, q).value.digest
    ensures middle.store == first.store
  {
    VerifyStoreMeaning(first, cfg, p);
    VerifyStoreMeaning(last, cfg, q);
    HeadDeterminesChain(first.journal, last.journal);
    CaptureDeterminesStore(first.store, last.store, cfg.storeId);
  }

  /** The states that a run passes through. */
  ghost function StatesOf(start: System, cfg: Config, calls: seq<Call>): (states: seq<System>)
    requires ValidCalls(calls)
    ensures |states| == |calls| + 1 && forall i | 0 <= i <= |calls| :: states[i] == Run(start, cfg, calls[..i])
  {
    seq(|calls| + 1, i requires 0 <= i <= |calls| => Run(start, cfg, calls[..i]))
  }

  lemma {:induction false} ChainGrows(states: seq<System>, a: nat, b: nat)
    requires a <= b < |states|
    requires forall i | 0 <= i < |states| - 1 :: Grows(states[i + 1], states[i])
    ensures Grows(states[b], states[a])
  {
    if a < b { ChainGrows(states, a, b - 1); }
  }

  lemma OneStepGrows(start: System, cfg: Config, calls: seq<Call>, i: nat)
    requires Coherent(start, cfg) && ValidCalls(calls) && i < |calls|
    ensures Grows(StatesOf(start, cfg, calls)[i + 1], StatesOf(start, cfg, calls)[i])
  {
    OneMoreCallGrows(start, cfg, calls[..i + 1]);
    assert calls[..i + 1][..i] == calls[..i];
  }

  lemma StatesGrow(start: System, cfg: Config, calls: seq<Call>, a: nat, b: nat)
    requires Coherent(start, cfg) && ValidCalls(calls) && a <= b <= |calls|
    ensures Grows(StatesOf(start, cfg, calls)[b], StatesOf(start, cfg, calls)[a])
  {
    forall i | 0 <= i < |calls| ensures Grows(StatesOf(start, cfg, calls)[i + 1], StatesOf(start, cfg, calls)[i]) {
      OneStepGrows(start, cfg, calls, i);
    }
    ChainGrows(StatesOf(start, cfg, calls), a, b);
  }

  lemma RunGrows(start: System, cfg: Config, calls: seq<Call>, a: nat, b: nat)
    requires Coherent(start, cfg) && ValidCalls(calls) && a <= b <= |calls|
    ensures Grows(Run(start, cfg, calls[..b]), Run(start, cfg, calls[..a]))
  {
    StatesGrow(start, cfg, calls, a, b);
  }

  lemma OneMoreCallGrows(start: System, cfg: Config, calls: seq<Call>)
    requires Coherent(start, cfg) && ValidCalls(calls) && calls != []
    ensures Grows(Run(start, cfg, calls), Run(start, cfg, calls[..|calls| - 1]))
  {
    RunKeepsCoherent(start, cfg, calls[..|calls| - 1]);
    ExecuteKeepsCoherent(Run(start, cfg, calls[..|calls| - 1]), cfg, calls[|calls| - 1]);
  }

  /** Seeing the same checkpoint twice means that nothing was written in between. */
  lemma SameCheckpointFreezesStore(
    start: System, cfg: Config, calls: seq<Call>, a: nat, b: nat, c: nat, p: Keyring, q: Keyring)
    requires Coherent(start, cfg) && ValidCalls(calls) && a <= b <= c <= |calls|
    requires VerifyStore(Run(start, cfg, calls[..a]), cfg, p).Ok? && VerifyStore(Run(start, cfg, calls[..c]), cfg, q).Ok?
    requires VerifyStore(Run(start, cfg, calls[..a]), cfg, p).value.digest
             == VerifyStore(Run(start, cfg, calls[..c]), cfg, q).value.digest
    ensures Run(start, cfg, calls[..b]).store == Run(start, cfg, calls[..a]).store
  {
    RunGrows(start, cfg, calls, a, b);
    RunGrows(start, cfg, calls, b, c);
    StoreInBetween(Run(start, cfg, calls[..a]), Run(start, cfg, calls[..b]), Run(start, cfg, calls[..c]), cfg, p, q);
  }
}
