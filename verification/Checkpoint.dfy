/**
  The authenticated checkpoint protocol on values: what one call to the authority does to
  the store, the journal and the head witness. Message authentication codes are symbolic,
  so a code verifies exactly when it was computed with the same key over the same payload.

  Each mutating call makes up to three durable writes, in the order store commit, journal
  append, witness replace. `durable` is the number of those writes that reach the disk
  before the process dies or the disk refuses; three or more mean an undisturbed call.
*/
module Checkpoint {
  import opened Names
  import opened Wrappers
  import opened HashChain
  import opened LearningStore

  datatype Mutation = Bootstrapped | Staged | Promoted | Archived | RolledBack | KeyRotated

  /** Digest over the columns of every version row. */
  datatype VersionsSha = VersionsSha(versions: seq<Version>)

  datatype Summary = Summary(
    storeId: Name, ledgerHead: Digest<Event>, entryCount: nat, headKind: Option<EventKind>, headItem: Option<Name>,
    headCandidate: Option<Name>, versionCount: nat, versionsSha: VersionsSha)

  datatype StateSha = StateSha(summary: Summary)

  /** The recomputed store state a checkpoint binds. */
  datatype State = State(summary: Summary, stateSha: StateSha)

  datatype Fields = Fields(sequence: nat, state: State, mutation: Mutation, keyId: Name, createdAt: Name)

  datatype Mac = Mac(key: Name, fields: Fields, previous: Digest<Signed>)

  datatype Signed = Signed(fields: Fields, mac: Mac)

  /** One journal line. */
  type Record = Entry<Signed>

  datatype WitnessMac = WitnessMac(
    key: Name, storeId: Name, sequence: nat, digest: Digest<Signed>, keyId: Name, createdAt: Name)

  datatype Witness = Witness(
    storeId: Name, sequence: nat, digest: Digest<Signed>, keyId: Name, createdAt: Name, mac: WitnessMac)

  /** Trusted keys of one process; the constructor of the keyring refuses an absent active key. */
  datatype Keyring = Keyring(keys: map<Name, Name>, active: Name) {
    predicate Valid() {
      active in keys
    }
  }

  /** `lineBytes` is the length of a record's journal line. */
  datatype Config = Config(storeId: Name, lineBytes: Record -> nat)

  datatype System = System(store: Store, journal: seq<Record>, headWitness: Option<Witness>)

  datatype CheckpointError =
    | StoreIntegrityFailed | JournalTooLarge | JournalRequired | SequenceGap | StoreIdMismatch | ChainMismatch
    | HashMismatch | KeyMissing | MacMismatch | WitnessRequired | WitnessStoreIdMismatch | WitnessMacMismatch
    | WitnessHeadMismatch | CheckpointRequired | StoreStateMismatch | AlreadyBootstrapped | ConcurrentChange
    | LedgerDeltaInvalid | VersionDeltaInvalid | EventTypeInvalid | Interrupted
    | AdvanceFailedAfterStoreMutation(cause: CheckpointError) | OperationRefused(reason: StoreError)
    | ExpectationAlreadyActive | ExpectationKindMismatch | ExpectedSequenceMismatch | ExpectedCheckpointMismatch
    | ExpectedStateMismatch

  type Verdict<T> = Result<T, CheckpointError>

  const MAX_JOURNAL_BYTES: nat := 16 * 1024 * 1024

  // ---------- Captured state ----------

  function Capture(store: Store, storeId: Name): Verdict<State> {
    if !LedgerIntact(store) || exists i | 0 <= i < |store.versions| :: !store.versions[i].Intact()
    then Err(StoreIntegrityFailed)
    else Ok(StateOf(store, storeId))
  }

  function StateOf(store: Store, storeId: Name): State {
    var last := if store.ledger == [] then None else Some(store.ledger[|store.ledger| - 1].body);
    var summary := Summary(
                     storeId, Head(store.ledger), |store.ledger|,
                     if last.Some? then Some(last.value.kind) else None,
                     if last.Some? then Some(last.value.itemId) else None,
                     if last.Some? then Some(last.value.candidateId) else None,
                     |store.versions|, VersionsSha(store.versions));
    State(summary, StateSha(summary))
  }

  // ---------- Verification ----------

  function JournalBytes(cfg: Config, journal: seq<Record>): nat {
    if journal == [] then 0
    else JournalBytes(cfg, journal[..|journal| - 1]) + cfg.lineBytes(journal[|journal| - 1])
  }

  /** The first check that record number `sequence` fails, given the digest before it. */
  function RecordFault(cfg: Config, record: Record, sequence: nat, previous: Digest<Signed>): Option<CheckpointError> {
    if record.body.fields.sequence != sequence then Some(SequenceGap)
    else if record.body.fields.state.summary.storeId != cfg.storeId then Some(StoreIdMismatch)
    else if record.previous != previous then Some(ChainMismatch)
    else if Sha(record.body, record.previous) != record.digest then Some(HashMismatch)
    else None
  }

  /** The first fault of the records from index `from` on, if any. */
  function ScanFault(cfg: Config, journal: seq<Record>, from: nat): Option<CheckpointError>
    requires from <= |journal|
    decreases |journal| - from
  {
    if from == |journal| then None
    else
      var fault := RecordFault(cfg, journal[from], from + 1, Head(journal[..from]));
      if fault.Some? then fault else ScanFault(cfg, journal, from + 1)
  }

  function SignatureFault(keyring: Keyring, record: Record): Option<CheckpointError> {
    var fields := record.body.fields;
    if fields.keyId !in keyring.keys then Some(KeyMissing)
    else if record.body.mac != Mac(keyring.keys[fields.keyId], fields, record.previous) then Some(MacMismatch)
    else None
  }

  function LoadWitness(sys: System, cfg: Config, keyring: Keyring): Verdict<Option<Witness>> {
    if sys.headWitness.None? then Ok(None)
    else
      var w := sys.headWitness.value;
      if w.storeId != cfg.storeId then Err(WitnessStoreIdMismatch)
      else if w.keyId !in keyring.keys then Err(KeyMissing)
      else if w.mac != WitnessMac(keyring.keys[w.keyId], w.storeId, w.sequence, w.digest, w.keyId, w.createdAt)
      then Err(WitnessMacMismatch)
      else Ok(Some(w))
  }

  function LoadJournal(sys: System, cfg: Config): Verdict<seq<Record>> {
    if JournalBytes(cfg, sys.journal) > MAX_JOURNAL_BYTES then Err(JournalTooLarge) else Ok(sys.journal)
  }

  function VerifyJournal(sys: System, cfg: Config, keyring: Keyring): Verdict<seq<Record>> {
    var records :- LoadJournal(sys, cfg);
    if records == [] then
      var named :- LoadWitness(sys, cfg, keyring);
      if named.Some? then Err(JournalRequired) else Ok([])
    else
      var fault := ScanFault(cfg, records, 0);
      var latest := records[|records| - 1];
      if fault.Some? then Err(fault.value)
      else if SignatureFault(keyring, latest).Some? then Err(SignatureFault(keyring, latest).value)
      else
        var named :- LoadWitness(sys, cfg, keyring);
        if named.None? then Err(WitnessRequired)
        else if named.value.sequence != latest.body.fields.sequence || named.value.digest != latest.digest
                || named.value.keyId != latest.body.fields.keyId
        then Err(WitnessHeadMismatch)
        else Ok(records)
  }

  function VerifyStore(sys: System, cfg: Config, keyring: Keyring): Verdict<Record> {
    var records :- VerifyJournal(sys, cfg, keyring);
    if records == [] then Err(CheckpointRequired)
    else
      var latest := records[|records| - 1];
      var state :- Capture(sys.store, cfg.storeId);
      if latest.body.fields.state != state then Err(StoreStateMismatch) else Ok(latest)
  }

  // ---------- Mutating calls ----------

  datatype Reply = Reply(system: System, outcome: Verdict<Record>)

  function MakeRecord(
    keyring: Keyring, state: State, sequence: nat, previous: Digest<Signed>, mutation: Mutation, now: Name): Record
    requires keyring.Valid()
  {
    var fields := Fields(sequence, state, mutation, keyring.active, now);
    Seal(Signed(fields, Mac(keyring.keys[keyring.active], fields, previous)), previous)
  }

  function MakeWitness(cfg: Config, keyring: Keyring, record: Record, now: Name): Witness
    requires keyring.Valid()
  {
    var sequence := record.body.fields.sequence;
    Witness(cfg.storeId, sequence, record.digest, keyring.active, now,
            WitnessMac(keyring.keys[keyring.active], cfg.storeId, sequence, record.digest, keyring.active, now))
  }

  /** Journal append, then witness replace. */
  function AppendRecord(sys: System, cfg: Config, keyring: Keyring, record: Record, now: Name, durable: nat): Reply
    requires keyring.Valid()
  {
    if durable == 0 then Reply(sys, Err(Interrupted))
    else
      var journaled := sys.(journal := sys.journal + [record]);
      if durable == 1 then Reply(journaled, Err(Interrupted))
      else Reply(journaled.(headWitness := Some(MakeWitness(cfg, keyring, record, now))), Ok(record))
  }

  /** Append, then verify everything once more before reporting success. */
  function AppendAndConfirm(sys: System, cfg: Config, keyring: Keyring, record: Record, now: Name, durable: nat): Reply
    requires keyring.Valid()
  {
    var reply := AppendRecord(sys, cfg, keyring, record, now, durable);
    if reply.outcome.Err? then reply
    else
      match VerifyStore(reply.system, cfg, keyring)
      case Err(e) => Reply(reply.system, Err(e))
      case Ok(_) => reply
  }

  function Bootstrap(sys: System, cfg: Config, keyring: Keyring, now: Name, durable: nat): Reply
    requires keyring.Valid()
  {
    match LoadJournal(sys, cfg)
    case Err(e) => Reply(sys, Err(e))
    case Ok(records) =>
      if records != [] then Reply(sys, Err(AlreadyBootstrapped))
      else
        match LoadWitness(sys, cfg, keyring)
        case Err(e) => Reply(sys, Err(e))
        case Ok(Some(_)) => Reply(sys, Err(AlreadyBootstrapped))
        case Ok(None) =>
          match Capture(sys.store, cfg.storeId)
          case Err(e) => Reply(sys, Err(e))
          case Ok(state) =>
            AppendAndConfirm(sys, cfg, keyring, MakeRecord(keyring, state, 1, Genesis, Bootstrapped, now), now, durable)
  }

  function RotateKey(sys: System, cfg: Config, keyring: Keyring, now: Name, durable: nat): Reply
    requires keyring.Valid()
  {
    match VerifyStore(sys, cfg, keyring)
    case Err(e) => Reply(sys, Err(e))
    case Ok(latest) => RotateFrom(sys, cfg, keyring, latest, now, durable)
  }

  function RotateFrom(sys: System, cfg: Config, keyring: Keyring, latest: Record, now: Name, durable: nat): Reply
    requires keyring.Valid()
  {
    if latest.body.fields.keyId == keyring.active then Reply(sys, Ok(latest))
    else
      match Capture(sys.store, cfg.storeId)
      case Err(e) => Reply(sys, Err(e))
      case Ok(state) =>
        var record := MakeRecord(keyring, state, latest.body.fields.sequence + 1, latest.digest, KeyRotated, now);
        AppendAndConfirm(sys, cfg, keyring, record, now, durable)
  }

  /** What the coordinator declares about each operation: its kind, its ledger events, its new versions. */
  function MutationOf(op: Operation): Mutation {
    match op
    case Stage(_, _, _) => Staged
    case Promote(_, _, _, _, _, _) => Promoted
    case Archive(_, _, _, _) => Archived
    case Rollback(_, _, _, _, _) => RolledBack
  }

  function DeclaredEvents(mutation: Mutation): set<EventKind> {
    match mutation
    case Staged => {StageEvent}
    case Promoted => {ValidateEvent, ActivateEvent, EnterpriseEvent}
    case Archived => {ArchiveEvent}
    case RolledBack => {RollbackEvent}
    case Bootstrapped => {}
    case KeyRotated => {}
  }

  function LedgerDelta(mutation: Mutation): nat {
    if mutation.Bootstrapped? || mutation.KeyRotated? then 0 else 1
  }

  function VersionDelta(mutation: Mutation): nat {
    if mutation.Staged? || mutation.Promoted? then 1 else 0
  }

  /** Authenticate the store as it stands after an operation that started from `before`. */
  function Advance(
    sys: System, cfg: Config, keyring: Keyring, before: Record, mutation: Mutation, now: Name, durable: nat): Reply
    requires keyring.Valid()
  {
    match VerifyJournal(sys, cfg, keyring)
    case Err(e) => Reply(sys, Err(e))
    case Ok(records) =>
      if records == [] || records[|records| - 1].digest != before.digest then Reply(sys, Err(ConcurrentChange))
      else
        match Capture(sys.store, cfg.storeId)
        case Err(e) => Reply(sys, Err(e))
        case Ok(state) =>
          var was := before.body.fields.state;
          if was == state then Reply(sys, Ok(before))
          else if state.summary.entryCount != was.summary.entryCount + 1 then Reply(sys, Err(LedgerDeltaInvalid))
          else if state.summary.versionCount != was.summary.versionCount + VersionDelta(mutation)
          then Reply(sys, Err(VersionDeltaInvalid))
          else if state.summary.headKind.None? || state.summary.headKind.value !in DeclaredEvents(mutation)
          then Reply(sys, Err(EventTypeInvalid))
          else
            var record := MakeRecord(keyring, state, before.body.fields.sequence + 1, before.digest, mutation, now);
            AppendAndConfirm(sys, cfg, keyring, record, now, durable)
  }

  /** Commit `store`, the operation's result, and authenticate it. */
  function CommitAndAdvance(
    sys: System, cfg: Config, keyring: Keyring, before: Record, store: Store, mutation: Mutation, now: Name,
    durable: nat): Reply
    requires keyring.Valid()
  {
    if store != sys.store && durable == 0 then Reply(sys, Err(Interrupted))
    else
      var left := if store != sys.store then durable - 1 else durable;
      var reply := Advance(sys.(store := store), cfg, keyring, before, mutation, now, left);
      if reply.outcome.Err?
      then Reply(reply.system, Err(AdvanceFailedAfterStoreMutation(reply.outcome.error)))
      else reply
  }

  /** The part of a mutation after its pre-verification returned `before`. */
  function MutateFrom(
    sys: System, cfg: Config, keyring: Keyring, before: Record, op: Operation, now: Name, durable: nat): Reply
    requires keyring.Valid()
  {
    match Perform(sys.store, op, now)
    case Err(reason) => Reply(sys, Err(OperationRefused(reason)))
    case Ok(store) => CommitAndAdvance(sys, cfg, keyring, before, store, MutationOf(op), now, durable)
  }

  function Mutate(sys: System, cfg: Config, keyring: Keyring, op: Operation, now: Name, durable: nat): Reply
    requires keyring.Valid()
  {
    match VerifyStore(sys, cfg, keyring)
    case Err(e) => Reply(sys, Err(e))
    case Ok(before) => MutateFrom(sys, cfg, keyring, before, op, now, durable)
  }
}
