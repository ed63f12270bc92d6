/** What every single checkpoint call keeps: the meaning of verification, and coherence of the three files. */
module CheckpointLaws {
  import opened Names
  import opened Wrappers
  import opened HashChain
  import opened LearningStore
  import opened Checkpoint

  function Last(journal: seq<Record>): Record
    requires journal != []
  {
    journal[|journal| - 1]
  }

  // ---------- What a scan without fault means ----------

  predicate WellLinked(cfg: Config, journal: seq<Record>) {
    && Chained(journal)
    && forall i | 0 <= i < |journal| ::
         journal[i].body.fields.sequence == i + 1 && journal[i].body.fields.state.summary.storeId == cfg.storeId
  }

  lemma {:induction false} ScanFromMeaning(cfg: Config, journal: seq<Record>, from: nat)
    requires from <= |journal|
    ensures ScanFault(cfg, journal, from).None? <==>
              forall i | from <= i < |journal| ::
                Links(journal, i) && journal[i].body.fields.sequence == i + 1
                && journal[i].body.fields.state.summary.storeId == cfg.storeId
    decreases |journal| - from
  {
    if from < |journal| {
      ScanFromMeaning(cfg, journal, from + 1);
      assert RecordFault(cfg, journal[from], from + 1, Head(journal[..from])).None? <==>
             Links(journal, from) && journal[from].body.fields.sequence == from + 1
             && journal[from].body.fields.state.summary.storeId == cfg.storeId;
    }
  }

  /** The one-pass journal check passes exactly on gapless chains of this store's records. */
  lemma ScanMeaning(cfg: Config, journal: seq<Record>)
    ensures ScanFault(cfg, journal, 0).None? <==> WellLinked(cfg, journal)
  {
    ScanFromMeaning(cfg, journal, 0);
  }

  // ---------- What verification means ----------

  predicate NamesHead(sys: System, cfg: Config)
    requires sys.journal != []
  {
    && sys.headWitness.Some?
    && var w := sys.headWitness.value;
    && w.storeId == cfg.storeId
    && w.sequence == Last(sys.journal).body.fields.sequence
    && w.digest == Last(sys.journal).digest
    && w.keyId == Last(sys.journal).body.fields.keyId
  }

  /** `key` signed both the head record and the witness. */
  predicate SignedBy(sys: System, cfg: Config, key: Name)
    requires sys.journal != [] && NamesHead(sys, cfg)
  {
    var head := Last(sys.journal);
    var w := sys.headWitness.value;
    && head.body.mac == Mac(key, head.body.fields, head.previous)
    && w.mac == WitnessMac(key, w.storeId, w.sequence, w.digest, w.keyId, w.createdAt)
  }

  /** The keyring knows, under the head's key id, the key that signed the head and the witness. */
  predicate Trusts(keyring: Keyring, sys: System, cfg: Config)
    requires sys.journal != [] && NamesHead(sys, cfg)
  {
    var id := Last(sys.journal).body.fields.keyId;
    id in keyring.keys && SignedBy(sys, cfg, keyring.keys[id])
  }

  predicate StoreIntact(store: Store) {
    LedgerIntact(store) && forall i | 0 <= i < |store.versions| :: store.versions[i].Intact()
  }

  /** The head record binds exactly the present store. */
  predicate StoreCurrent(sys: System, cfg: Config)
    requires sys.journal != []
  {
    StoreIntact(sys.store) && Last(sys.journal).body.fields.state == StateOf(sys.store, cfg.storeId)
  }

  predicate Unbootstrapped(sys: System) {
    sys.journal == [] && sys.headWitness.None?
  }

  /** Journal, witness and store agree, and the journal is still readable. */
  predicate Healthy(sys: System, cfg: Config) {
    && sys.journal != []
    && JournalBytes(cfg, sys.journal) <= MAX_JOURNAL_BYTES
    && WellLinked(cfg, sys.journal)
    && NamesHead(sys, cfg)
    && StoreCurrent(sys, cfg)
  }

  /** Verification succeeds exactly on healthy files whose signing key the process holds. */
  lemma VerifyStoreMeaning(sys: System, cfg: Config, keyring: Keyring)
    ensures VerifyStore(sys, cfg, keyring).Ok? <==> Healthy(sys, cfg) && Trusts(keyring, sys, cfg)
    ensures VerifyStore(sys, cfg, keyring).Ok? ==> VerifyStore(sys, cfg, keyring).value == Last(sys.journal)
  {
    ScanMeaning(cfg, sys.journal);
  }

  lemma VerifyJournalMeaning(sys: System, cfg: Config, keyring: Keyring)
    requires sys.journal != []
    ensures VerifyJournal(sys, cfg, keyring).Ok? <==>
              && JournalBytes(cfg, sys.journal) <= MAX_JOURNAL_BYTES && WellLinked(cfg, sys.journal)
              && NamesHead(sys, cfg) && Trusts(keyring, sys, cfg)
    ensures VerifyJournal(sys, cfg, keyring).Ok? ==> VerifyJournal(sys, cfg, keyring).value == sys.journal
  {
    ScanMeaning(cfg, sys.journal);
  }

  // ---------- The witness determines the journal ----------

  /** Two journals accepted under one witness are equal, whatever the stores and keyrings beside them. */
  lemma WitnessDeterminesJournal(a: System, b: System, cfg: Config, keyringA: Keyring, keyringB: Keyring)
    requires a.headWitness == b.headWitness
    requires VerifyJournal(a, cfg, keyringA).Ok? && VerifyJournal(b, cfg, keyringB).Ok?
    ensures a.journal == b.journal
  {
    if a.journal != [] && b.journal != [] {
      VerifyJournalMeaning(a, cfg, keyringA);
      VerifyJournalMeaning(b, cfg, keyringB);
      HeadDeterminesChain(a.journal, b.journal);
    }
  }

  /** Replaying any other generation of the journal under the current witness is refused. */
  lemma OtherGenerationsAreRefused(sys: System, cfg: Config, keyring: Keyring, other: System, otherKeyring: Keyring)
    requires VerifyStore(sys, cfg, keyring).Ok?
    requires other.headWitness == sys.headWitness && other.journal != sys.journal
    ensures VerifyJournal(other, cfg, otherKeyring).Err?
    ensures VerifyStore(other, cfg, otherKeyring).Err?
  {
    if VerifyJournal(other, cfg, otherKeyring).Ok? {
      VerifyStoreMeaning(sys, cfg, keyring);
      VerifyJournalMeaning(sys, cfg, keyring);
      WitnessDeterminesJournal(sys, other, cfg, keyring, otherKeyring);
    }
  }

  /** A captured state determines the store's tables. */
  lemma CaptureDeterminesStore(a: Store, b: Store, storeId: Name)
    requires LedgerIntact(a) && LedgerIntact(b)
    requires StateOf(a, storeId) == StateOf(b, storeId)
    ensures a == b
  {
    HeadDeterminesChain(a.ledger, b.ledger);
  }

  // ---------- Journal history ----------

  /** The store as it stood when it had `entries` ledger entries and `versions` version rows. */
  function Past(store: Store, entries: nat, versions: nat): Store
    requires entries <= |store.ledger| && versions <= |store.versions|
  {
    Store(store.versions[..versions], store.ledger[..entries])
  }

  /** A record authenticates some earlier generation of the present tables. */
  predicate RecordsPast(store: Store, cfg: Config, record: Record) {
    var s := record.body.fields.state.summary;
    && s.entryCount <= |store.ledger| && s.versionCount <= |store.versions|
    && record.body.fields.state == StateOf(Past(store, s.entryCount, s.versionCount), cfg.storeId)
  }

  /** What a record may add to its predecessor. */
  predicate Follows(earlier: Record, later: Record) {
    var was := earlier.body.fields.state.summary;
    var is_ := later.body.fields.state.summary;
    var kind := later.body.fields.mutation;
    && !kind.Bootstrapped?
    && is_.entryCount == was.entryCount + LedgerDelta(kind)
    && is_.versionCount == was.versionCount + VersionDelta(kind)
    && if kind.KeyRotated? then
         later.body.fields.state == earlier.body.fields.state && later.body.fields.keyId != earlier.body.fields.keyId
       else is_.headKind.Some? && is_.headKind.value in DeclaredEvents(kind)
  }

  predicate JournalHistory(sys: System, cfg: Config) {
    && (forall i | 0 <= i < |sys.journal| :: RecordsPast(sys.store, cfg, sys.journal[i]))
    && (sys.journal != [] ==> sys.journal[0].body.fields.mutation.Bootstrapped?)
    && (forall i | 0 <= i < |sys.journal| - 1 :: Follows(sys.journal[i], sys.journal[i + 1]))
  }

  /** Holds of every reachable system, crashed or not. */
  ghost predicate Coherent(sys: System, cfg: Config) {
    && ValidStore(sys.store)
    && WellLinked(cfg, sys.journal)
    && JournalHistory(sys, cfg)
    && (sys.headWitness.Some? ==> sys.headWitness.value.sequence <= |sys.journal| && sys.journal != [])
    && (sys.journal != [] && NamesHead(sys, cfg) ==> exists key :: SignedBy(sys, cfg, key))
  }

  lemma WellLinkedAppend(cfg: Config, journal: seq<Record>, record: Record)
    requires WellLinked(cfg, journal)
    requires record == Seal(record.body, Head(journal))
    requires record.body.fields.sequence == |journal| + 1
    requires record.body.fields.state.summary.storeId == cfg.storeId
    ensures WellLinked(cfg, journal + [record])
  {
    ChainedAppend(journal, record.body);
  }

  /** Growing the store leaves the journal's history as it was. */
  lemma HistorySurvivesGrowth(sys: System, cfg: Config, store: Store)
    requires JournalHistory(sys, cfg) && Extends(store, sys.store)
    ensures JournalHistory(sys.(store := store), cfg)
  {
    forall i | 0 <= i < |sys.journal| ensures RecordsPast(store, cfg, sys.journal[i]) {
      assert RecordsPast(sys.store, cfg, sys.journal[i]);
      var s := sys.journal[i].body.fields.state.summary;
      assert Past(store, s.entryCount, s.versionCount) == Past(sys.store, s.entryCount, s.versionCount);
    }
  }

  /** A record that the authority may append to the present files. */
  predicate Appendable(sys: System, cfg: Config, record: Record) {
    && record == Seal(record.body, Head(sys.journal))
    && record.body.fields.sequence == |sys.journal| + 1
    && record.body.fields.state == StateOf(sys.store, cfg.storeId)
    && if sys.journal == [] then record.body.fields.mutation.Bootstrapped? else Follows(Last(sys.journal), record)
  }

  /** After the journal append the files are coherent, and the witness lags behind. */
  lemma JournalAppendKeepsCoherent(sys: System, cfg: Config, record: Record)
    requires Coherent(sys, cfg) && Appendable(sys, cfg, record)
    ensures Coherent(sys.(journal := sys.journal + [record]), cfg)
    ensures !NamesHead(sys.(journal := sys.journal + [record]), cfg)
  {
    WellLinkedAppend(cfg, sys.journal, record);
    HistoryAppends(sys, cfg, record);
  }

  lemma HistoryAppends(sys: System, cfg: Config, record: Record)
    requires JournalHistory(sys, cfg) && Appendable(sys, cfg, record)
    ensures JournalHistory(sys.(journal := sys.journal + [record]), cfg)
  {
    var after := sys.(journal := sys.journal + [record]);
    assert Past(sys.store, |sys.store.ledger|, |sys.store.versions|) == sys.store;
    forall i | 0 <= i < |after.journal| ensures RecordsPast(after.store, cfg, after.journal[i]) {
      if i < |sys.journal| { assert RecordsPast(sys.store, cfg, sys.journal[i]); }
    }
    forall i | 0 <= i < |after.journal| - 1 ensures Follows(after.journal[i], after.journal[i + 1]) {
      if i < |sys.journal| - 1 { assert Follows(sys.journal[i], sys.journal[i + 1]); }
    }
  }

  /** The witness replacement completes the append. */
  lemma WitnessReplaceCompletes(sys: System, cfg: Config, keyring: Keyring, record: Record, now: Name)
    requires keyring.Valid() && Coherent(sys, cfg)
    requires sys.journal != [] && Last(sys.journal) == record
    requires record.body.fields.keyId == keyring.active
    requires record.body.mac == Mac(keyring.keys[keyring.active], record.body.fields, record.previous)
    requires StoreCurrent(sys, cfg)
    ensures var after := sys.(headWitness := Some(MakeWitness(cfg, keyring, record, now)));
            Coherent(after, cfg) && NamesHead(after, cfg) && StoreCurrent(after, cfg) && Trusts(keyring, after, cfg)
  {
    var after := sys.(headWitness := Some(MakeWitness(cfg, keyring, record, now)));
    assert SignedBy(after, cfg, keyring.keys[keyring.active]);
    assert JournalHistory(after, cfg);
  }

  /** Wherever an append is cut short, the files stay coherent; uncut, they agree again. */
  lemma AppendRecordKeepsCoherent(
    sys: System, cfg: Config, keyring: Keyring, mutation: Mutation, now: Name, record: Record, durable: nat)
    requires keyring.Valid() && Coherent(sys, cfg) && Appendable(sys, cfg, record)
    requires record == MakeRecord(keyring, record.body.fields.state, |sys.journal| + 1, Head(sys.journal), mutation, now)
    ensures var after := AppendRecord(sys, cfg, keyring, record, now, durable).system;
            && Coherent(after, cfg) && after.store == sys.store
            && (durable == 0 ==> after == sys)
            && (durable >= 1 ==> after.journal == sys.journal + [record])
            && (durable == 1 ==> !NamesHead(after, cfg))
            && (durable >= 2 ==> NamesHead(after, cfg) && StoreCurrent(after, cfg) && Trusts(keyring, after, cfg))
  {
    if durable > 0 {
      var journaled := sys.(journal := sys.journal + [record]);
      JournalAppendKeepsCoherent(sys, cfg, record);
      if durable > 1 {
        WitnessReplaceCompletes(journaled, cfg, keyring, record, now);
      }
    }
  }

  lemma ConfirmChangesNothing(sys: System, cfg: Config, keyring: Keyring, record: Record, now: Name, durable: nat)
    requires keyring.Valid()
    ensures AppendAndConfirm(sys, cfg, keyring, record, now, durable).system ==
            AppendRecord(sys, cfg, keyring, record, now, durable).system
    ensures AppendAndConfirm(sys, cfg, keyring, record, now, durable).outcome.Ok? ==>
              && durable >= 2
              && VerifyStore(AppendRecord(sys, cfg, keyring, record, now, durable).system, cfg, keyring).Ok?
  {
  }

  // ---------- Single calls ----------

  /** `later` is `earlier` after one committed operation of the declared kind. */
  ghost predicate Committed(earlier: Store, later: Store, kind: Mutation) {
    && ValidStore(later) && Extends(later, earlier)
    && LedgerDelta(kind) == 1
    && |later.ledger| == |earlier.ledger| + 1
    && |later.versions| == |earlier.versions| + VersionDelta(kind)
    && later.ledger[|earlier.ledger|].body.kind in DeclaredEvents(kind)
  }

  lemma OperationDelta(store: Store, op: Operation, now: Name)
    requires Perform(store, op, now).Ok?
    ensures var after := Perform(store, op, now).value;
            after == store ||
            (&& |after.ledger| == |store.ledger| + 1
             && |after.versions| == |store.versions| + VersionDelta(MutationOf(op))
             && after.ledger[|store.ledger|].body.kind in DeclaredEvents(MutationOf(op)))
  {
  }

  /** What the coordinator declares about an operation is exactly what the store commits. */
  lemma OperationMatchesDeclaration(store: Store, op: Operation, now: Name)
    requires ValidStore(store) && Perform(store, op, now).Ok?
    ensures var after := Perform(store, op, now).value;
            after == store || Committed(store, after, MutationOf(op))
  {
    var after := Perform(store, op, now).value;
    OperationDelta(store, op, now);
    PerformKeepsValid(store, op, now);
    if after != store {
      DeltaIsCommit(store, after, MutationOf(op));
    }
  }

  lemma DeltaIsCommit(earlier: Store, later: Store, kind: Mutation)
    requires ValidStore(later) && Extends(later, earlier) && LedgerDelta(kind) == 1
    requires |later.ledger| == |earlier.ledger| + 1 && |later.versions| == |earlier.versions| + VersionDelta(kind)
    requires later.ledger[|earlier.ledger|].body.kind in DeclaredEvents(kind)
    ensures Committed(earlier, later, kind)
  {
  }
}
