/**
  The learning store: immutable version rows and a hash-chained ledger. Every committed
  operation appends exactly one ledger entry and zero or one version row. The tables are
  values here; the checkpoint authority changes them in place.
*/
module LearningStore {
  import opened Names
  import opened Wrappers
  import opened HashChain

  datatype Action = Create | Patch | Supersede

  datatype Level = CandidateLevel | ValidatedLevel | ApprovedLevel | EnterpriseLevel

  datatype EventKind = StageEvent | ValidateEvent | ActivateEvent | EnterpriseEvent | ArchiveEvent | RollbackEvent

  /** Reusable content, without task-specific provenance. */
  datatype Knowledge = Knowledge(
    domain: Name, kind: Name, title: string, content: string, scope: string,
    sensitivity: Name, risk: Name, ownership: Name, executionMode: Name)

  datatype KnowledgeSha = KnowledgeSha(itemId: Name, knowledge: Knowledge)

  datatype Candidate = Candidate(
    id: Name, action: Action, target: Option<Name>, base: Option<KnowledgeSha>, knowledge: Knowledge,
    experienceHashes: seq<Name>, evidenceHashes: seq<Name>, createdAt: Name)
  {
    predicate Valid() {
      if action.Create? then target.None? && base.None? else target.Some? && base.Some?
    }

    function ItemId(): Name
      requires Valid()
    {
      if action.Create? then id else target.value
    }

    function KnowledgeDigest(): KnowledgeSha
      requires Valid()
    {
      KnowledgeSha(ItemId(), knowledge)
    }
  }

  datatype CandidateSha = CandidateSha(candidate: Candidate)

  datatype Version = Version(
    versionId: nat, itemId: Name, candidateId: Name, candidateSha: CandidateSha, knowledgeSha: KnowledgeSha,
    candidate: Candidate, level: Level, active: bool, receipt: Option<Name>, createdAt: Name)
  {
    /** Every identity column is recomputable from the stored candidate. */
    predicate Intact() {
      && candidate.Valid()
      && candidateId == candidate.id
      && candidateSha == CandidateSha(candidate)
      && itemId == candidate.ItemId()
      && knowledgeSha == candidate.KnowledgeDigest()
    }
  }

  datatype Event = Event(
    number: nat, kind: EventKind, itemId: Name, candidateId: Name, candidateSha: CandidateSha,
    knowledgeSha: KnowledgeSha, before: Option<KnowledgeSha>, after: Option<KnowledgeSha>, receipt: Option<Name>,
    experienceHashes: seq<Name>, evidenceHashes: seq<Name>, actor: Name, reason: Name, timestamp: Name)

  datatype Store = Store(versions: seq<Version>, ledger: seq<Entry<Event>>)

  datatype StoreError =
    | CandidateInvalid | OwnershipRefused | LedgerIntegrityFailed | VersionIntegrityFailed | CandidateIdImmutable
    | CreateOverActive | PatchWithoutTarget | StaleBase | NotStaged | ReceiptImmutable | PromotionBlocked
    | ItemNotActive | ItemChanged | RollbackTargetMissing | ActiveSnapshotMissing

  /** What a caller may ask of the store; `gateAllows` is the promotion policy's verdict on the receipt. */
  datatype Operation =
    | Stage(candidate: Candidate, actor: Name, reason: Name)
    | Promote(candidateId: Name, target: Level, receiptSha: Name, gateAllows: bool, actor: Name, reason: Name)
    | Archive(itemId: Name, expected: KnowledgeSha, actor: Name, reason: Name)
    | Rollback(itemId: Name, goal: KnowledgeSha, current: Option<KnowledgeSha>, actor: Name, reason: Name)

  // ---------- Queries ----------

  /** `ORDER BY ... DESC LIMIT 1`: the last row satisfying the condition. */
  function LastWhere<T>(rows: seq<T>, condition: T -> bool): (r: Option<T>)
    ensures r.None? <==> forall i | 0 <= i < |rows| :: !condition(rows[i])
    ensures r.Some? ==> exists i | 0 <= i < |rows| ::
              && rows[i] == r.value && condition(rows[i])
              && forall j | i < j < |rows| :: !condition(rows[j])
  {
    if rows == [] then None
    else
      var n := |rows| - 1;
      if condition(rows[n]) then Some(rows[n]) else LastWhere(rows[..n], condition)
  }

  predicate LedgerIntact(store: Store) {
    && Chained(store.ledger)
    && forall i | 0 <= i < |store.ledger| :: store.ledger[i].body.number == i + 1
  }

  predicate SetsActive(kind: EventKind) {
    kind.ActivateEvent? || kind.EnterpriseEvent? || kind.ArchiveEvent? || kind.RollbackEvent?
  }

  /** The active version of an item, derived from the ledger; there is no mutable pointer. */
  function ActiveRow(store: Store, itemId: Name): Result<Option<Version>, StoreError> {
    match LastWhere(store.ledger, (e: Entry<Event>) => e.body.itemId == itemId && SetsActive(e.body.kind))
    case None => Ok(None)
    case Some(entry) =>
      var event := entry.body;
      if event.kind.ArchiveEvent? || event.after.None? then Ok(None)
      else
        match LastWhere(store.versions, (v: Version) =>
            v.itemId == itemId && v.candidateId == event.candidateId && v.knowledgeSha == event.after.value && v.active)
        case None => Err(ActiveSnapshotMissing)
        case Some(row) =>
          if !row.Intact() || event.candidateSha != row.candidateSha || event.knowledgeSha != row.knowledgeSha
          then Err(VersionIntegrityFailed)
          else Ok(Some(row))
  }

  /** The identity under which evidence about a candidate is recorded. */
  datatype Binding = Binding(candidateSha: CandidateSha, itemId: Name, knowledgeSha: KnowledgeSha)

  function BindingOf(store: Store, candidateId: Name): Option<Binding> {
    match LastWhere(store.versions, (v: Version) => v.candidateId == candidateId)
    case None => None
    case Some(row) => if row.Intact() then Some(Binding(row.candidateSha, row.itemId, row.knowledgeSha)) else None
  }

  // ---------- Operations ----------

  function MakeEvent(
    store: Store, kind: EventKind, row: Version, before: Option<KnowledgeSha>, after: Option<KnowledgeSha>,
    receipt: Option<Name>, actor: Name, reason: Name, now: Name): Event
  {
    Event(|store.ledger| + 1, kind, row.itemId, row.candidateId, row.candidateSha, row.knowledgeSha, before, after,
          receipt, row.candidate.experienceHashes, row.candidate.evidenceHashes, actor, reason, now)
  }

  function AppendEvent(store: Store, event: Event): Store {
    store.(ledger := store.ledger + [Seal(event, Head(store.ledger))])
  }

  function AppendVersion(store: Store, row: Version, event: Event): Store {
    AppendEvent(store.(versions := store.versions + [row]), event)
  }

  function KnowledgeOf(active: Option<Version>): Option<KnowledgeSha> {
    if active.Some? then Some(active.value.knowledgeSha) else None
  }

  function StageRow(store: Store, c: Candidate, now: Name): Version
    requires c.Valid()
  {
    Version(|store.versions| + 1, c.ItemId(), c.id, CandidateSha(c), c.KnowledgeDigest(), c, CandidateLevel, false,
            None, now)
  }

  function PerformStage(store: Store, c: Candidate, actor: Name, reason: Name, now: Name): Result<Store, StoreError> {
    if !c.Valid() then Err(CandidateInvalid)
    else if c.knowledge.ownership != "learner_managed" then Err(OwnershipRefused)
    else if !LedgerIntact(store) then Err(LedgerIntegrityFailed)
    else
      match LastWhere(store.versions, (v: Version) => v.candidateId == c.id && v.level.CandidateLevel?)
      case Some(row) =>
        if !row.Intact() then Err(VersionIntegrityFailed)
        else if row.candidateSha != CandidateSha(c) || row.itemId != c.ItemId() then Err(CandidateIdImmutable)
        else Ok(store)
      case None =>
        var active :- ActiveRow(store, c.ItemId());
        if c.action.Create? && active.Some? then Err(CreateOverActive)
        else if !c.action.Create? && active.None? then Err(PatchWithoutTarget)
        else if !c.action.Create? && c.base != KnowledgeOf(active) then Err(StaleBase)
        else
          var row := StageRow(store, c, now);
          Ok(AppendVersion(store, row,
               MakeEvent(store, StageEvent, row, KnowledgeOf(active), None, None, actor, reason, now)))
  }

  function LevelRank(level: Level): nat {
    match level
    case CandidateLevel => 0
    case ValidatedLevel => 1
    case ApprovedLevel => 2
    case EnterpriseLevel => 3
  }

  function PerformPromote(
    store: Store, candidateId: Name, target: Level, receiptSha: Name, gateAllows: bool, actor: Name, reason: Name,
    now: Name): Result<Store, StoreError>
  {
    if !LedgerIntact(store) then Err(LedgerIntegrityFailed)
    else
      match LastWhere(store.versions, (v: Version) => v.candidateId == candidateId)
      case None => Err(NotStaged)
      case Some(latest) =>
        if !latest.Intact() then Err(VersionIntegrityFailed)
        else
          match LastWhere(store.versions, (v: Version) => v.candidateId == candidateId && v.level == target)
          case Some(existing) =>
            if !existing.Intact() then Err(VersionIntegrityFailed)
            else if existing.receipt != Some(receiptSha) then Err(ReceiptImmutable)
            else Ok(store)
          case None =>
            if LevelRank(target) != LevelRank(latest.level) + 1 || !gateAllows then Err(PromotionBlocked)
            else
              var active :- ActiveRow(store, latest.itemId);
              var activates := LevelRank(target) >= 2 &&
                               !(target.ApprovedLevel? && active.Some? && active.value.level.EnterpriseLevel?);
              var row := latest.(versionId := |store.versions| + 1, level := target, active := activates,
                                 receipt := Some(receiptSha), createdAt := now);
              var kind := if !activates then ValidateEvent
                          else if target.EnterpriseLevel? then EnterpriseEvent else ActivateEvent;
              Ok(AppendVersion(store, row,
                   MakeEvent(store, kind, row, KnowledgeOf(active),
                             if activates then Some(row.knowledgeSha) else None, Some(receiptSha), actor, reason, now)))
  }

  function PerformArchive(store: Store, itemId: Name, expected: KnowledgeSha, actor: Name, reason: Name, now: Name)
    : Result<Store, StoreError>
  {
    if !LedgerIntact(store) then Err(LedgerIntegrityFailed)
    else
      var active :- ActiveRow(store, itemId);
      if active.None? then Err(ItemNotActive)
      else if active.value.knowledgeSha != expected then Err(ItemChanged)
      else Ok(AppendEvent(store,
                MakeEvent(store, ArchiveEvent, active.value, Some(expected), None, active.value.receipt,
                          actor, reason, now)))
  }

  function PerformRollback(
    store: Store, itemId: Name, goal: KnowledgeSha, current: Option<KnowledgeSha>, actor: Name, reason: Name, now: Name)
    : Result<Store, StoreError>
  {
    if !LedgerIntact(store) then Err(LedgerIntegrityFailed)
    else
      var active :- ActiveRow(store, itemId);
      if KnowledgeOf(active) != current then Err(ItemChanged)
      else
        match LastWhere(store.versions, (v: Version) => v.itemId == itemId && v.knowledgeSha == goal && v.active)
        case None => Err(RollbackTargetMissing)
        case Some(row) =>
          if !row.Intact() then Err(VersionIntegrityFailed)
          else Ok(AppendEvent(store,
                    MakeEvent(store, RollbackEvent, row, current, Some(goal), row.receipt, actor, reason, now)))
  }

  function Perform(store: Store, op: Operation, now: Name): Result<Store, StoreError> {
    match op
    case Stage(c, actor, reason) => PerformStage(store, c, actor, reason, now)
    case Promote(id, target, receipt, gateAllows, actor, reason) =>
      PerformPromote(store, id, target, receipt, gateAllows, actor, reason, now)
    case Archive(item, expected, actor, reason) => PerformArchive(store, item, expected, actor, reason, now)
    case Rollback(item, goal, current, actor, reason) =>
      PerformRollback(store, item, goal, current, actor, reason, now)
  }

  // ---------- Invariant ----------

  ghost predicate ImmutableCandidates(versions: seq<Version>) {
    forall i, j | 0 <= i < |versions| && 0 <= j < |versions| ::
      versions[i].candidateId == versions[j].candidateId ==> versions[i].candidate == versions[j].candidate
  }

  /** The table's UNIQUE(candidate_id, level) constraint. */
  ghost predicate OneRowPerLevel(versions: seq<Version>) {
    forall i, j | 0 <= i < j < |versions| ::
      !(versions[i].candidateId == versions[j].candidateId && versions[i].level == versions[j].level)
  }

  /** Whatever level a candidate reached, its row as first staged is still there. */
  ghost predicate HasStagedRow(versions: seq<Version>, candidateId: Name) {
    exists i | 0 <= i < |versions| :: versions[i].candidateId == candidateId && versions[i].level.CandidateLevel?
  }

  /** An activating entry is backed by an active snapshot row of the same candidate. */
  ghost predicate Backed(versions: seq<Version>, event: Event) {
    (event.kind.ActivateEvent? || event.kind.EnterpriseEvent? || event.kind.RollbackEvent?) ==>
      && event.after == Some(event.knowledgeSha)
      && exists i | 0 <= i < |versions| ::
           && versions[i].active && versions[i].itemId == event.itemId
           && versions[i].candidateId == event.candidateId && versions[i].candidateSha == event.candidateSha
           && versions[i].knowledgeSha == event.knowledgeSha
  }

  /** An active snapshot row was activated, at an active level, by some ledger entry. */
  ghost predicate Activated(ledger: seq<Entry<Event>>, row: Version) {
    row.active ==>
      && (row.level.ApprovedLevel? || row.level.EnterpriseLevel?)
      && exists j | 0 <= j < |ledger| :: Activates(ledger[j].body, row.itemId, row.knowledgeSha)
  }

  /** The entry makes this knowledge the active knowledge of the item. */
  predicate Activates(event: Event, itemId: Name, knowledge: KnowledgeSha) {
    && (event.kind.ActivateEvent? || event.kind.EnterpriseEvent? || event.kind.RollbackEvent?)
    && event.itemId == itemId && event.after == Some(knowledge)
  }

  ghost predicate ValidStore(store: Store) {
    && LedgerIntact(store)
    && (forall i | 0 <= i < |store.versions| :: store.versions[i].Intact() && store.versions[i].versionId == i + 1)
    && ImmutableCandidates(store.versions)
    && OneRowPerLevel(store.versions)
    && (forall i | 0 <= i < |store.versions| :: HasStagedRow(store.versions, store.versions[i].candidateId))
    && (forall i | 0 <= i < |store.ledger| :: Backed(store.versions, store.ledger[i].body))
    && (forall i | 0 <= i < |store.versions| :: Activated(store.ledger, store.versions[i]))
  }

  /** The tables only grow. */
  predicate Extends(later: Store, earlier: Store) {
    earlier.versions <= later.versions && earlier.ledger <= later.ledger
  }

  lemma LastWhereIndex<T>(rows: seq<T>, condition: T -> bool) returns (k: nat)
    requires LastWhere(rows, condition).Some?
    ensures k < |rows| && rows[k] == LastWhere(rows, condition).value && condition(rows[k])
  {
    k :| 0 <= k < |rows| && rows[k] == LastWhere(rows, condition).value && condition(rows[k])
         && forall j | k < j < |rows| :: !condition(rows[j]);
  }

  ghost predicate RowsIntact(versions: seq<Version>) {
    forall i | 0 <= i < |versions| :: versions[i].Intact()
  }

  /** The snapshot that backs an activating entry is what the active-row query finds. */
  lemma SnapshotIsFound(versions: seq<Version>, event: Event, found: (Version) -> bool)
    requires RowsIntact(versions) && ImmutableCandidates(versions) && Backed(versions, event)
    requires event.kind.ActivateEvent? || event.kind.EnterpriseEvent? || event.kind.RollbackEvent?
    requires forall v: Version :: found(v) <==>
               v.itemId == event.itemId && v.candidateId == event.candidateId && v.knowledgeSha == event.knowledgeSha
               && v.active
    ensures LastWhere(versions, found).Some?
    ensures var row := LastWhere(versions, found).value;
            row in versions && found(row) && row.Intact() && row.candidateSha == event.candidateSha
  {
    var k :| 0 <= k < |versions| && versions[k].active && versions[k].itemId == event.itemId
             && versions[k].candidateId == event.candidateId && versions[k].candidateSha == event.candidateSha
             && versions[k].knowledgeSha == event.knowledgeSha;
    assert found(versions[k]);
    var j := LastWhereIndex(versions, found);
    assert versions[j].candidate == versions[k].candidate;
  }

  /** Deriving the active version from an intact store never fails. */
  lemma ActiveRowNeverFails(store: Store, itemId: Name)
    requires ValidStore(store)
    ensures ActiveRow(store, itemId).Ok?
    ensures ActiveRow(store, itemId).value.Some? ==>
              var row := ActiveRow(store, itemId).value.value;
              row in store.versions && row.active && row.itemId == itemId
  {
    var isActive := (e: Entry<Event>) => e.body.itemId == itemId && SetsActive(e.body.kind);
    if LastWhere(store.ledger, isActive).Some? {
      var k := LastWhereIndex(store.ledger, isActive);
      var event := store.ledger[k].body;
      assert Backed(store.versions, event);
      if !event.kind.ArchiveEvent? && event.after.Some? {
        SnapshotIsFound(store.versions, event, (v: Version) =>
          v.itemId == itemId && v.candidateId == event.candidateId && v.knowledgeSha == event.after.value && v.active);
      }
    }
  }

  lemma AppendEventKeepsValid(store: Store, event: Event)
    requires ValidStore(store)
    requires event.number == |store.ledger| + 1 && Backed(store.versions, event)
    ensures ValidStore(AppendEvent(store, event))
    ensures Extends(AppendEvent(store, event), store)
  {
    ChainedAppend(store.ledger, event);
    forall i | 0 <= i < |store.versions| ensures Activated(AppendEvent(store, event).ledger, store.versions[i]) {
      ActivatedPersists(store.ledger, Seal(event, Head(store.ledger)), store.versions[i]);
    }
  }

  lemma ActivatedPersists(ledger: seq<Entry<Event>>, entry: Entry<Event>, row: Version)
    requires Activated(ledger, row)
    ensures Activated(ledger + [entry], row)
  {
    if row.active {
      var j :| 0 <= j < |ledger| && Activates(ledger[j].body, row.itemId, row.knowledgeSha);
      assert (ledger + [entry])[j] == ledger[j];
    }
  }

  lemma AppendVersionKeepsValid(store: Store, row: Version, event: Event)
    requires ValidStore(store)
    requires row.Intact() && row.versionId == |store.versions| + 1
    requires forall i | 0 <= i < |store.versions| ::
               store.versions[i].candidateId == row.candidateId ==> store.versions[i].candidate == row.candidate
    requires forall i | 0 <= i < |store.versions| ::
               !(store.versions[i].candidateId == row.candidateId && store.versions[i].level == row.level)
    requires row.level.CandidateLevel? || HasStagedRow(store.versions, row.candidateId)
    requires event.number == |store.ledger| + 1 && Backed(store.versions + [row], event)
    requires row.active ==>
               && (row.level.ApprovedLevel? || row.level.EnterpriseLevel?)
               && Activates(event, row.itemId, row.knowledgeSha)
    ensures ValidStore(AppendVersion(store, row, event))
    ensures Extends(AppendVersion(store, row, event), store)
  {
    var grown := store.(versions := store.versions + [row]);
    var after := AppendVersion(store, row, event);
    ChainedAppend(store.ledger, event);
    assert after.ledger[|store.ledger|].body == event;
    forall i | 0 <= i < |store.ledger| ensures Backed(grown.versions, store.ledger[i].body) {
      assert Backed(store.versions, store.ledger[i].body);
      BackedPersists(store.versions, row, store.ledger[i].body);
    }
    forall i | 0 <= i < |grown.versions| ensures HasStagedRow(grown.versions, grown.versions[i].candidateId) {
      StagedRowPersists(store.versions, row, grown.versions[i].candidateId);
    }
    forall i | 0 <= i < |grown.versions| ensures Activated(after.ledger, grown.versions[i]) {
      if i < |store.versions| { ActivatedPersists(store.ledger, after.ledger[|store.ledger|], store.versions[i]); }
    }
  }

  lemma BackedPersists(versions: seq<Version>, row: Version, event: Event)
    requires Backed(versions, event)
    ensures Backed(versions + [row], event)
  {
    if event.kind.ActivateEvent? || event.kind.EnterpriseEvent? || event.kind.RollbackEvent? {
      var k :| 0 <= k < |versions| && versions[k].active && versions[k].itemId == event.itemId
               && versions[k].candidateId == event.candidateId && versions[k].candidateSha == event.candidateSha
               && versions[k].knowledgeSha == event.knowledgeSha;
      assert (versions + [row])[k] == versions[k];
    }
  }

  lemma StagedRowPersists(versions: seq<Version>, row: Version, candidateId: Name)
    requires HasStagedRow(versions, candidateId) || (row.candidateId == candidateId && row.level.CandidateLevel?)
    ensures HasStagedRow(versions + [row], candidateId)
  {
    var grown := versions + [row];
    if HasStagedRow(versions, candidateId) {
      var k :| 0 <= k < |versions| && versions[k].candidateId == candidateId && versions[k].level.CandidateLevel?;
      assert grown[k] == versions[k];
    } else {
      assert grown[|versions|] == row;
    }
  }

  lemma StageKeepsValid(store: Store, c: Candidate, actor: Name, reason: Name, now: Name)
    requires ValidStore(store)
    requires PerformStage(store, c, actor, reason, now).Ok?
    ensures var after := PerformStage(store, c, actor, reason, now).value;
            ValidStore(after) && Extends(after, store)
  {
    var staged := (v: Version) => v.candidateId == c.id && v.level.CandidateLevel?;
    if LastWhere(store.versions, staged).None? {
      assert forall i | 0 <= i < |store.versions| :: !staged(store.versions[i]);
      assert !HasStagedRow(store.versions, c.id);
      var row := StageRow(store, c, now);
      var active := ActiveRow(store, c.ItemId()).value;
      AppendVersionKeepsValid(store, row,
        MakeEvent(store, StageEvent, row, KnowledgeOf(active), None, None, actor, reason, now));
    }
  }

  lemma PromoteKeepsValid(
    store: Store, candidateId: Name, target: Level, receiptSha: Name, gateAllows: bool, actor: Name, reason: Name,
    now: Name)
    requires ValidStore(store)
    requires PerformPromote(store, candidateId, target, receiptSha, gateAllows, actor, reason, now).Ok?
    ensures var after := PerformPromote(store, candidateId, target, receiptSha, gateAllows, actor, reason, now).value;
            ValidStore(after) && Extends(after, store)
  {
    var ofCandidate := (v: Version) => v.candidateId == candidateId;
    var atTarget := (v: Version) => v.candidateId == candidateId && v.level == target;
    var k := LastWhereIndex(store.versions, ofCandidate);
    if LastWhere(store.versions, atTarget).None? {
      var after := PerformPromote(store, candidateId, target, receiptSha, gateAllows, actor, reason, now).value;
      var row := after.versions[|store.versions|];
      var event := after.ledger[|store.ledger|].body;
      assert after == AppendVersion(store, row, event);
      assert forall i | 0 <= i < |store.versions| :: !atTarget(store.versions[i]);
      assert (store.versions + [row])[|store.versions|] == row;
      AppendVersionKeepsValid(store, row, event);
    }
  }

  /** An accepted operation keeps the store intact and only ever appends. */
  lemma PerformKeepsValid(store: Store, op: Operation, now: Name)
    requires ValidStore(store)
    requires Perform(store, op, now).Ok?
    ensures ValidStore(Perform(store, op, now).value)
    ensures Extends(Perform(store, op, now).value, store)
  {
    match op
    case Stage(c, actor, reason) => StageKeepsValid(store, c, actor, reason, now);
    case Promote(id, target, receipt, gateAllows, actor, reason) =>
      PromoteKeepsValid(store, id, target, receipt, gateAllows, actor, reason, now);
    case Archive(item, expected, actor, reason) =>
      ActiveRowNeverFails(store, item);
      var row := ActiveRow(store, item).value.value;
      AppendEventKeepsValid(store,
        MakeEvent(store, ArchiveEvent, row, Some(expected), None, row.receipt, actor, reason, now));
    case Rollback(item, goal, current, actor, reason) =>
      var promoted := (v: Version) => v.itemId == item && v.knowledgeSha == goal && v.active;
      var k := LastWhereIndex(store.versions, promoted);
      var row := store.versions[k];
      AppendEventKeepsValid(store,
        MakeEvent(store, RollbackEvent, row, current, Some(goal), row.receipt, actor, reason, now));
  }

  // ---------- Candidate bindings ----------

  /** In an intact store every row of a candidate yields the same binding. */
  lemma BindingOfRow(store: Store, i: nat)
    requires ValidStore(store) && i < |store.versions|
    ensures var row := store.versions[i];
            BindingOf(store, row.candidateId) == Some(Binding(row.candidateSha, row.itemId, row.knowledgeSha))
  {
  }

  /** A candidate's binding never changes again: a candidate id is immutable. */
  lemma BindingIsStable(earlier: Store, later: Store, candidateId: Name)
    requires ValidStore(earlier) && ValidStore(later) && Extends(later, earlier)
    requires BindingOf(earlier, candidateId).Some?
    ensures BindingOf(later, candidateId) == BindingOf(earlier, candidateId)
  {
  }
}
