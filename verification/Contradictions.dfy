/**
  The append-only contradiction index: its lifecycle rules, its one-pass checker and its
  derived statistics, as functions of the event table and of the learning store beside it.
*/
module Contradictions {
  import opened Names
  import opened Wrappers
  import opened HashChain
  import opened LearningStore
  import opened Checkpoint

  datatype Status = Open | Resolved | Dismissed

  /** A timestamp: the instant it denotes and the text it is written as. */
  datatype Stamp = Stamp(instant: int, text: string)

  datatype Evidence = Evidence(refId: Name, sha: Name)

  datatype Contradiction = Contradiction(
    id: Name, candidateId: Name, evidence: seq<Evidence>, summary: string, status: Status, createdAt: Stamp,
    resolvedAt: Option<Stamp>)
  {
    predicate Valid() {
      && 1 <= |evidence| <= 32
      && (forall i, j | 0 <= i < j < |evidence| ::
            evidence[i].refId != evidence[j].refId && evidence[i].sha != evidence[j].sha)
      && (status.Open? <==> resolvedAt.None?)
    }
  }

  datatype EvidenceSha = EvidenceSha(evidence: seq<Evidence>)
  datatype SummarySha = SummarySha(summary: string)
  datatype RecordSha = RecordSha(record: Contradiction)

  /** What may not change between the events of one contradiction. */
  datatype Identity = Identity(
    id: Name, candidateId: Name, binding: Binding, evidenceCount: nat, evidenceSha: EvidenceSha,
    summarySha: SummarySha, createdAt: Stamp)

  datatype EventBody = EventBody(
    number: nat, status: Status, identity: Identity, recordSha: RecordSha, resolvedAt: Option<Stamp>, actor: Name,
    reason: Name, checkpoint: Digest<Signed>)
  {
    /** The row's own validation. */
    predicate Intact() {
      && 1 <= identity.evidenceCount <= 32
      && (if status.Open? then resolvedAt.None?
          else resolvedAt.Some? && identity.createdAt.instant <= resolvedAt.value.instant)
    }
  }

  type Row = Entry<EventBody>

  const MAX_EVENTS: nat := 10_000
  const MAX_OPEN_PER_CANDIDATE: nat := 128

  // ---------- Checker ----------

  datatype Failure =
    | EventCapacityExceeded | SeqGap(at: nat) | ChainPreviousMismatch(at: nat) | TerminalWithoutOpen(at: nat)
    | EventAfterTerminal(at: nat) | TransitionIdentityMismatch(at: nat) | CandidateShaMismatch(at: nat)
    | ItemIdMismatch(at: nat) | KnowledgeShaMismatch(at: nat) | CandidateBindingInvalid(at: nat)
    | EventIntegrityFailed(at: nat) | EntryHashMismatch(at: nat)

  function When(condition: bool, failure: Failure): seq<Failure> {
    if condition then [failure] else []
  }

  function LifecycleFailures(body: EventBody, states: map<Name, EventBody>): seq<Failure> {
    var n := body.number;
    if body.identity.id !in states then When(!body.status.Open?, TerminalWithoutOpen(n))
    else
      var prior := states[body.identity.id];
      When(!prior.status.Open?, EventAfterTerminal(n))
      + When(prior.identity != body.identity, TransitionIdentityMismatch(n))
  }

  function BindingFailures(body: EventBody, store: Store): seq<Failure> {
    var n := body.number;
    match BindingOf(store, body.identity.candidateId)
    case None => [CandidateBindingInvalid(n)]
    case Some(b) =>
      When(b.candidateSha != body.identity.binding.candidateSha, CandidateShaMismatch(n))
      + When(b.itemId != body.identity.binding.itemId, ItemIdMismatch(n))
      + When(b.knowledgeSha != body.identity.binding.knowledgeSha, KnowledgeShaMismatch(n))
  }

  /** The failures that one row adds, given the states and the digest reached before it. */
  function RowFailures(row: Row, expected: nat, previous: Digest<EventBody>, states: map<Name, EventBody>, store: Store)
    : seq<Failure>
  {
    var n := row.body.number;
    When(n != expected, SeqGap(n))
    + When(row.previous != previous, ChainPreviousMismatch(n))
    + (if row.body.Intact() then LifecycleFailures(row.body, states) + BindingFailures(row.body, store)
       else [EventIntegrityFailed(n)])
    + When(Sha(row.body, row.previous) != row.digest, EntryHashMismatch(n))
  }

  function NextStates(row: Row, states: map<Name, EventBody>): map<Name, EventBody> {
    if row.body.Intact() then states[row.body.identity.id := row.body] else states
  }

  /** The state of every contradiction after the given rows. */
  function StatesAfter(rows: seq<Row>): map<Name, EventBody> {
    if rows == [] then map[]
    else NextStates(rows[|rows| - 1], StatesAfter(rows[..|rows| - 1]))
  }

  function FailuresOf(rows: seq<Row>, store: Store): seq<Failure> {
    if rows == [] then []
    else
      var n := |rows| - 1;
      FailuresOf(rows[..n], store) + RowFailures(rows[n], n + 1, Head(rows[..n]), StatesAfter(rows[..n]), store)
  }

  function Check(rows: seq<Row>, store: Store): seq<Failure> {
    When(|rows| > MAX_EVENTS, EventCapacityExceeded) + FailuresOf(rows, store)
  }

  // ---------- Recording ----------

  datatype IndexError =
    | InvalidRecord | ResolutionPredatesCreation | CheckpointInvalid | LedgerFailed | IndexIntegrityFailed | HeadChanged
    | CandidateNotFound | CandidateShaChanged | MustOpenFirst | OpenCapacityExceeded | MetadataImmutable | AlreadyTerminal
    | AlreadyOpen | IdentityChanged | EventCapacity | StatisticsCapacityExceeded

  /** One call of `record`; `checkpoint` is the verdict of the checkpoint authority at that moment. */
  datatype Request = Request(
    record: Contradiction, expectedCandidate: CandidateSha, expectedHead: Digest<EventBody>, actor: Name, reason: Name,
    checkpoint: Verdict<Record>)

  function RowsOf(rows: seq<Row>, id: Name): (r: seq<Row>) {
    if rows == [] then []
    else
      var n := |rows| - 1;
      RowsOf(rows[..n], id) + if rows[n].body.identity.id == id then [rows[n]] else []
  }

  /** The last row of each contradiction, over the rows of one candidate or over all. */
  function LatestRows(rows: seq<Row>): map<Name, Row> {
    if rows == [] then map[]
    else LatestRows(rows[..|rows| - 1])[rows[|rows| - 1].body.identity.id := rows[|rows| - 1]]
  }

  function CandidateRows(rows: seq<Row>, candidateId: Name): seq<Row> {
    if rows == [] then []
    else
      var n := |rows| - 1;
      CandidateRows(rows[..n], candidateId) + if rows[n].body.identity.candidateId == candidateId then [rows[n]] else []
  }

  function OpenIds(latest: map<Name, Row>): set<Name> {
    set id | id in latest && latest[id].body.status.Open?
  }

  function ProjectedIdentity(record: Contradiction, binding: Binding): Identity {
    Identity(record.id, record.candidateId, binding, |record.evidence|, EvidenceSha(record.evidence),
             SummarySha(record.summary), record.createdAt)
  }

  /** The decision about an already integrity-checked table: a refusal, a replayed row, or a new body. */
  datatype Decision = Refuse(error: IndexError) | Replay(row: Row) | Insert(body: EventBody)

  function DecideTransition(rows: seq<Row>, request: Request, binding: Binding): Option<Decision> {
    var record := request.record;
    var history := RowsOf(rows, record.id);
    if history == [] then
      if !record.status.Open? then Some(Refuse(MustOpenFirst))
      else if |OpenIds(LatestRows(CandidateRows(rows, record.candidateId)))| >= MAX_OPEN_PER_CANDIDATE
      then Some(Refuse(OpenCapacityExceeded))
      else None
    else
      var prior := history[|history| - 1];
      if prior.body.status == record.status && prior.body.recordSha == RecordSha(record) then
        if prior.body.actor != request.actor || prior.body.reason != request.reason then Some(Refuse(MetadataImmutable))
        else Some(Replay(prior))
      else if !prior.body.status.Open? then Some(Refuse(AlreadyTerminal))
      else if record.status.Open? then Some(Refuse(AlreadyOpen))
      else if prior.body.identity != ProjectedIdentity(record, binding) then Some(Refuse(IdentityChanged))
      else None
  }

  /** The checks that come before the lifecycle rules; they yield the candidate's binding. */
  function Precheck(rows: seq<Row>, store: Store, request: Request): Result<Binding, IndexError> {
    var record := request.record;
    if !record.Valid() then Err(InvalidRecord)
    else if !record.status.Open? && record.resolvedAt.value.instant < record.createdAt.instant
    then Err(ResolutionPredatesCreation)
    else if request.checkpoint.Err? then Err(CheckpointInvalid)
    else if !LedgerIntact(store) then Err(LedgerFailed)
    else if Check(rows, store) != [] then Err(IndexIntegrityFailed)
    else if Head(rows) != request.expectedHead then Err(HeadChanged)
    else
      match BindingOf(store, record.candidateId)
      case None => Err(CandidateNotFound)
      case Some(binding) =>
        if binding.candidateSha != request.expectedCandidate then Err(CandidateShaChanged) else Ok(binding)
  }

  function BodyFor(rows: seq<Row>, request: Request, binding: Binding, checkpoint: Record): EventBody {
    EventBody(|rows| + 1, request.record.status, ProjectedIdentity(request.record, binding), RecordSha(request.record),
              request.record.resolvedAt, request.actor, request.reason, checkpoint.digest)
  }

  function Decide(rows: seq<Row>, store: Store, request: Request): Decision {
    match Precheck(rows, store, request)
    case Err(error) => Refuse(error)
    case Ok(binding) =>
      match DecideTransition(rows, request, binding)
      case Some(decision) => decision
      case None =>
        if |rows| + 1 > MAX_EVENTS then Refuse(EventCapacity)
        else Insert(BodyFor(rows, request, binding, request.checkpoint.value))
  }

  /** The table after one call of `record`. */
  function RecordInto(rows: seq<Row>, store: Store, request: Request): seq<Row> {
    var decision := Decide(rows, store, request);
    if decision.Insert? then rows + [Seal(decision.body, Head(rows))] else rows
  }

  // ---------- Statistics ----------

  datatype Group = Group(candidateId: Name, binding: Binding)

  datatype Statistics = Statistics(group: Group, total: nat, open: nat, resolved: nat, dismissed: nat)

  function GroupOf(row: Row): Group {
    Group(row.body.identity.candidateId, row.body.identity.binding)
  }

  /** The latest rows that belong to one group. */
  function Members(latest: set<Row>, group: Group): set<Row> {
    set row | row in latest && GroupOf(row) == group
  }

  function WithStatus(rows: set<Row>, status: Status): set<Row> {
    set row | row in rows && row.body.status == status
  }

  function StatisticsOf(latest: set<Row>, group: Group): Statistics {
    var members := Members(latest, group);
    Statistics(group, |members|, |WithStatus(members, Open)|, |WithStatus(members, Resolved)|,
               |WithStatus(members, Dismissed)|)
  }
}
