/** What one call of `record` does to a sound index: when it appends, what it appends, and what it answers otherwise. */
module RecordLaws {
  import opened Names
  import opened Wrappers
  import opened HashChain
  import opened LearningStore
  import opened Checkpoint
  import opened Contradictions
  import opened ContradictionLaws
  import opened ContradictionRuns

  /** No event of this contradiction yet. */
  predicate Unseen(rows: seq<Row>, id: Name) {
    forall j | 0 <= j < |rows| :: rows[j].body.identity.id != id
  }

  /** The event at `k` is the newest of this contradiction. */
  predicate Newest(rows: seq<Row>, id: Name, k: nat) {
    && k < |rows| && rows[k].body.identity.id == id
    && forall j | k < j < |rows| :: rows[j].body.identity.id != id
  }

  /** The identity is that of the record, for a candidate with this binding. */
  predicate IdentifiedBy(identity: Identity, record: Contradiction, binding: Binding) {
    && identity.id == record.id && identity.candidateId == record.candidateId && identity.binding == binding
    && identity.evidenceCount == |record.evidence| && identity.evidenceSha == EvidenceSha(record.evidence)
    && identity.summarySha == SummarySha(record.summary) && identity.createdAt == record.createdAt
  }

  /** A good record with good times, a good checkpoint, the present head, and the candidate as the caller knows it. */
  predicate Current(index: Index, request: Request) {
    && request.record.Valid()
    && (!request.record.status.Open? ==>
          request.record.createdAt.instant <= request.record.resolvedAt.value.instant)
    && request.checkpoint.Ok?
    && request.expectedHead == Head(index.rows)
    && BindingOf(index.store, request.record.candidateId).Some?
    && BindingOf(index.store, request.record.candidateId).value.candidateSha == request.expectedCandidate
  }

  /** A contradiction that is new, open, and within the limit of its candidate. */
  predicate Opens(index: Index, record: Contradiction) {
    && record.status.Open? && Unseen(index.rows, record.id)
    && |OpenFor(index.rows, record.candidateId)| < MAX_OPEN_PER_CANDIDATE
  }

  /** The end of a contradiction whose newest event, at `k`, is open and has the same identity. */
  predicate ClosesAt(index: Index, record: Contradiction, k: nat) {
    && !record.status.Open? && Newest(index.rows, record.id, k) && index.rows[k].body.status.Open?
    && BindingOf(index.store, record.candidateId).Some?
    && IdentifiedBy(index.rows[k].body.identity, record, BindingOf(index.store, record.candidateId).value)
  }

  predicate Closes(index: Index, record: Contradiction) {
    exists k: nat :: k < |index.rows| && ClosesAt(index, record, k)
  }

  /** The newest event of this contradiction already records the same, by the same actor, for the same reason. */
  predicate RepeatsAt(index: Index, request: Request, k: nat) {
    && Newest(index.rows, request.record.id, k)
    && index.rows[k].body.status == request.record.status
    && index.rows[k].body.recordSha == RecordSha(request.record)
    && index.rows[k].body.actor == request.actor && index.rows[k].body.reason == request.reason
  }

  predicate Recordable(index: Index, request: Request) {
    && Current(index, request) && |index.rows| < MAX_EVENTS
    && (Opens(index, request.record) || Closes(index, request.record))
  }

  // ---------- Histories by position ----------

  lemma {:induction false} NewestEndsHistory(rows: seq<Row>, id: Name) returns (k: nat)
    ensures RowsOf(rows, id) == [] <==> Unseen(rows, id)
    ensures RowsOf(rows, id) != [] ==> Newest(rows, id, k) && rows[k] == RowsOf(rows, id)[|RowsOf(rows, id)| - 1]
  {
    k := 0;
    if rows != [] {
      var n := |rows| - 1;
      if rows[n].body.identity.id == id {
        k := n;
      } else {
        k := NewestEndsHistory(rows[..n], id);
        assert forall j | 0 <= j < n :: rows[..n][j] == rows[j];
      }
    }
  }

  lemma NewestIsUnique(rows: seq<Row>, id: Name, j: nat, k: nat)
    requires Newest(rows, id, j) && Newest(rows, id, k)
    ensures j == k
  {
  }

  /** A contradiction counts as open for a candidate exactly when its newest event is open and concerns that candidate. */
  lemma OpenForMeaning(index: Index, candidateId: Name, id: Name)
    requires Inv(index)
    ensures id in OpenFor(index.rows, candidateId) <==>
              exists k: nat :: Newest(index.rows, id, k) && index.rows[k].body.status.Open?
                               && index.rows[k].body.identity.candidateId == candidateId
  {
    var latest := NewestEndsHistory(index.rows, id);
    StrictIsLifecycle(index.rows);
    LatestOfCandidate(index.rows, candidateId, id);
    LatestIsLastOfHistory(index.rows, id);
    if id in LatestRows(index.rows) {
      assert Newest(index.rows, id, latest) && index.rows[latest] == LatestRows(index.rows)[id];
    }
    forall k: nat | Newest(index.rows, id, k) ensures k == latest && id in LatestRows(index.rows) {
      assert !Unseen(index.rows, id);
      NewestIsUnique(index.rows, id, k, latest);
    }
  }

  // ---------- The answer to one call ----------

  /** On a sound index the checks before the lifecycle rules pass exactly for current requests. */
  lemma PrecheckMeaning(index: Index, request: Request)
    requires Inv(index)
    ensures Precheck(index.rows, index.store, request).Ok? <==> Current(index, request)
    ensures Current(index, request) ==>
              Precheck(index.rows, index.store, request).value == BindingOf(index.store, request.record.candidateId).value
  {
    InvPassesChecker(index);
  }

  /** A fact of the lifecycle rules about the last event of a history. */
  lemma IdentityIsProjected(identity: Identity, record: Contradiction, binding: Binding)
    ensures identity == ProjectedIdentity(record, binding) <==> IdentifiedBy(identity, record, binding)
  {
  }

  lemma TransitionMeaning(index: Index, request: Request, binding: Binding) returns (k: nat)
    requires BindingOf(index.store, request.record.candidateId) == Some(binding)
    ensures var decision := DecideTransition(index.rows, request, binding);
            && (Unseen(index.rows, request.record.id) || Newest(index.rows, request.record.id, k))
            && (decision.None? <==> Opens(index, request.record) || ClosesAt(index, request.record, k))
            && (decision.Some? && !decision.value.Refuse? <==> RepeatsAt(index, request, k))
            && (RepeatsAt(index, request, k) ==> decision == Some(Replay(index.rows[k])))
  {
    k := NewestEndsHistory(index.rows, request.record.id);
    if RowsOf(index.rows, request.record.id) != [] {
      IdentityIsProjected(index.rows[k].body.identity, request.record, binding);
    }
  }

  lemma OnlyNewestCounts(index: Index, request: Request, k: nat)
    requires Unseen(index.rows, request.record.id) || Newest(index.rows, request.record.id, k)
    ensures Closes(index, request.record) <==> ClosesAt(index, request.record, k)
    ensures forall j: nat | RepeatsAt(index, request, j) :: j == k
  {
    forall j: nat | Newest(index.rows, request.record.id, j) ensures j == k {
      NewestIsUnique(index.rows, request.record.id, j, k);
    }
  }

  /** A call appends exactly when it is recordable. */
  lemma AppendMeaning(index: Index, request: Request)
    requires Inv(index)
    ensures Decide(index.rows, index.store, request).Insert? <==> Recordable(index, request)
    ensures RecordInto(index.rows, index.store, request) != index.rows <==> Recordable(index, request)
  {
    PrecheckMeaning(index, request);
    if Current(index, request) {
      var k := TransitionMeaning(index, request, BindingOf(index.store, request.record.candidateId).value);
      OnlyNewestCounts(index, request, k);
    }
    InsertionShows(index.rows, index.store, request);
  }

  lemma InsertionShows(rows: seq<Row>, store: Store, request: Request)
    ensures RecordInto(rows, store, request) != rows <==> Decide(rows, store, request).Insert?
  {
    if Decide(rows, store, request).Insert? { assert |RecordInto(rows, store, request)| == |rows| + 1; }
  }

  /** A call returns an earlier event exactly when that event is the newest of its contradiction and says the same. */
  lemma ReplayMeaning(index: Index, request: Request, row: Row)
    requires Inv(index)
    ensures Decide(index.rows, index.store, request) == Replay(row) <==>
              Current(index, request)
              && exists k: nat :: RepeatsAt(index, request, k) && index.rows[k] == row
  {
    PrecheckMeaning(index, request);
    if Current(index, request) {
      var k := TransitionMeaning(index, request, BindingOf(index.store, request.record.candidateId).value);
      OnlyNewestCounts(index, request, k);
    }
  }

  /** Each refusal by the lifecycle rules has its own reason. */
  lemma RefusalMeaning(index: Index, request: Request, k: nat)
    requires Inv(index) && Current(index, request)
    requires Unseen(index.rows, request.record.id) || Newest(index.rows, request.record.id, k)
    ensures var decision, record := Decide(index.rows, index.store, request), request.record;
            if Unseen(index.rows, record.id) then
              && (decision == Refuse(MustOpenFirst) <==> !record.status.Open?)
              && (decision == Refuse(OpenCapacityExceeded) <==>
                    record.status.Open? && |OpenFor(index.rows, record.candidateId)| >= MAX_OPEN_PER_CANDIDATE)
            else
              var newest := index.rows[k].body;
              var same := newest.status == record.status && newest.recordSha == RecordSha(record);
              && (decision == Refuse(MetadataImmutable) <==>
                    same && (newest.actor != request.actor || newest.reason != request.reason))
              && (decision == Refuse(AlreadyTerminal) <==> !same && !newest.status.Open?)
              && (decision == Refuse(AlreadyOpen) <==> !same && newest.status.Open? && record.status.Open?)
              && (decision == Refuse(IdentityChanged) <==>
                    && newest.status.Open? && !record.status.Open?
                    && !IdentifiedBy(newest.identity, record, BindingOf(index.store, record.candidateId).value))
  {
    PrecheckMeaning(index, request);
    TransitionRefusals(index.rows, request, BindingOf(index.store, request.record.candidateId).value, k);
  }

  lemma TransitionRefusals(rows: seq<Row>, request: Request, binding: Binding, k: nat)
    requires Unseen(rows, request.record.id) || Newest(rows, request.record.id, k)
    ensures var decision, record := DecideTransition(rows, request, binding), request.record;
            if Unseen(rows, record.id) then
              decision == if !record.status.Open? then Some(Refuse(MustOpenFirst))
                          else if |OpenFor(rows, record.candidateId)| >= MAX_OPEN_PER_CANDIDATE
                          then Some(Refuse(OpenCapacityExceeded)) else None
            else
              var newest := rows[k].body;
              if newest.status == record.status && newest.recordSha == RecordSha(record) then
                decision == Some(if newest.actor == request.actor && newest.reason == request.reason
                                 then Replay(rows[k]) else Refuse(MetadataImmutable))
              else if !newest.status.Open? then decision == Some(Refuse(AlreadyTerminal))
              else if record.status.Open? then decision == Some(Refuse(AlreadyOpen))
              else decision == if IdentifiedBy(newest.identity, record, binding) then None else Some(Refuse(IdentityChanged))
  {
    var last := NewestEndsHistory(rows, request.record.id);
    if RowsOf(rows, request.record.id) != [] {
      NewestIsUnique(rows, request.record.id, k, last);
      IdentityIsProjected(rows[k].body.identity, request.record, binding);
    }
  }

  // ---------- What an append leaves ----------

  /** The appended event carries the caller's record, actor, reason and checkpoint, and goes on top of the old head. */
  predicate EventFor(index: Index, request: Request, row: Row)
    requires Current(index, request)
  {
    var body := row.body;
    && body.number == |index.rows| + 1 && body.status == request.record.status
    && IdentifiedBy(body.identity, request.record, BindingOf(index.store, request.record.candidateId).value)
    && body.recordSha == RecordSha(request.record) && body.resolvedAt == request.record.resolvedAt
    && body.actor == request.actor && body.reason == request.reason
    && body.checkpoint == request.checkpoint.value.digest
    && row.previous == request.expectedHead && row.digest == Sha(body, row.previous)
  }

  lemma AppendedEvent(index: Index, request: Request) returns (row: Row)
    requires Inv(index) && Recordable(index, request)
    ensures RecordInto(index.rows, index.store, request) == index.rows + [row]
    ensures EventFor(index, request, row)
  {
    AppendMeaning(index, request);
    var binding := InsertPasses(index, request);
    row := Seal(BodyFor(index.rows, request, binding, request.checkpoint.value), Head(index.rows));
  }

  /**
    An opened contradiction is open for its candidate from then on, a closed one was and no longer
    is, and no other contradiction changes sides for any candidate.
  */
  ghost predicate ChangesSides(rows: seq<Row>, after: seq<Row>, record: Contradiction) {
    var before := OpenFor(rows, record.candidateId);
    && (if record.status.Open?
        then record.id !in before && OpenFor(after, record.candidateId) == before + {record.id}
        else record.id in before && OpenFor(after, record.candidateId) == before - {record.id})
    && forall other | other != record.candidateId :: OpenFor(after, other) == OpenFor(rows, other)
  }

  lemma AppendEffect(index: Index, request: Request)
    requires Inv(index) && Recordable(index, request)
    ensures ChangesSides(index.rows, RecordInto(index.rows, index.store, request), request.record)
  {
    var row := AppendedEvent(index, request);
    OpenBeforeAppend(index, request.record);
    EventChangesSides(index.rows, row, request.record);
  }

  lemma EventChangesSides(rows: seq<Row>, row: Row, record: Contradiction)
    requires row.body.identity.id == record.id && row.body.identity.candidateId == record.candidateId
    requires row.body.status == record.status
    requires record.id in OpenFor(rows, record.candidateId) <==> !record.status.Open?
    ensures ChangesSides(rows, rows + [row], record)
  {
    forall other | other != record.candidateId ensures OpenFor(rows + [row], other) == OpenFor(rows, other) {
      OpenForExtends(rows, row, other);
    }
    OpenForExtends(rows, row, record.candidateId);
  }

  lemma OpenBeforeAppend(index: Index, record: Contradiction)
    requires Inv(index) && (Opens(index, record) || Closes(index, record))
    ensures record.id in OpenFor(index.rows, record.candidateId) <==> !record.status.Open?
  {
    OpenForMeaning(index, record.candidateId, record.id);
    if !record.status.Open? {
      var k: nat :| k < |index.rows| && ClosesAt(index, record, k);
    }
  }

  // ---------- Whole lives ----------

  /** Whatever is open can be closed: with room and a good checkpoint, the end of it is recorded at the present head. */
  lemma OpenCanBeClosed(index: Index, request: Request, k: nat)
    requires Inv(index) && Current(index, request) && |index.rows| < MAX_EVENTS
    requires Newest(index.rows, request.record.id, k) && index.rows[k].body.status.Open?
    requires !request.record.status.Open?
    requires var identity := index.rows[k].body.identity;
             && identity.candidateId == request.record.candidateId && identity.evidenceCount == |request.record.evidence|
             && identity.evidenceSha == EvidenceSha(request.record.evidence)
             && identity.summarySha == SummarySha(request.record.summary)
             && identity.createdAt == request.record.createdAt
    ensures Recordable(index, request)
    ensures ChangesSides(index.rows, RecordInto(index.rows, index.store, request), request.record)
  {
    assert SoundRow(index.rows, k, index.store);
    assert ClosesAt(index, request.record, k);
    AppendEffect(index, request);
  }

  /** Repeated at the new head, with any good checkpoint, the same call is answered with the event it appended. */
  lemma RepetitionIsAnswered(index: Index, request: Request, again: Verdict<Record>) returns (row: Row)
    requires Inv(index) && Recordable(index, request) && again.Ok?
    ensures RecordInto(index.rows, index.store, request) == index.rows + [row]
    ensures Decide(index.rows + [row], index.store, request.(expectedHead := row.digest, checkpoint := again)) == Replay(row)
  {
    row := AppendedEvent(index, request);
    var repeated := request.(expectedHead := row.digest, checkpoint := again);
    ApplyKeepsInv(index, Recorded(request));
    var grown := index.(rows := index.rows + [row]);
    assert RepeatsAt(grown, repeated, |index.rows|);
    ReplayMeaning(grown, repeated, row);
  }

  // ---------- The whole answer ----------

  function AnswerOf(rows: seq<Row>, store: Store, request: Request): Result<Row, IndexError> {
    match Decide(rows, store, request)
    case Refuse(error) => Err(error)
    case Replay(row) => Ok(row)
    case Insert(body) => Ok(Seal(body, Head(rows)))
  }

  /**
    The table grows exactly by a recordable event, which is returned. Otherwise it stays, and
    the answer is the earlier event that the call repeats, or a refusal.
  */
  ghost predicate Answered(index: Index, request: Request, after: seq<Row>, r: Result<Row, IndexError>) {
    if Recordable(index, request) then
      && r.Ok? && after == index.rows + [r.value]
      && EventFor(index, request, r.value) && ChangesSides(index.rows, after, request.record)
    else
      && after == index.rows
      && (forall row :: r == Ok(row) <==>
            Current(index, request) && exists k: nat :: RepeatsAt(index, request, k) && index.rows[k] == row)
  }

  lemma RecordMeaning(rows: seq<Row>, store: Store, request: Request)
    ensures var index, after := Index(rows, store), RecordInto(rows, store, request);
            Inv(index) ==> Inv(Index(after, store)) && Answered(index, request, after, AnswerOf(rows, store, request))
  {
    var index := Index(rows, store);
    if Inv(index) {
      ApplyKeepsInv(index, Recorded(request));
      AppendMeaning(index, request);
      if Recordable(index, request) {
        var row := AppendedEvent(index, request);
        AppendEffect(index, request);
        AnswerIsAppended(rows, store, request, row);
      } else {
        forall row ensures AnswerOf(rows, store, request) == Ok(row) <==> Decide(rows, store, request) == Replay(row) {}
        forall row { ReplayMeaning(index, request, row); }
      }
    }
  }

  lemma AnswerIsAppended(rows: seq<Row>, store: Store, request: Request, row: Row)
    requires RecordInto(rows, store, request) == rows + [row]
    ensures AnswerOf(rows, store, request) == Ok(row)
  {
    assert (rows + [row])[|rows|] == row;
  }

  // ---------- What the statistics count ----------

  /** The contradictions of a candidate whose newest event has this status. */
  ghost function Standing(rows: seq<Row>, candidateId: Name, status: Status): set<Name> {
    set k: nat | k < |rows| && Newest(rows, rows[k].body.identity.id, k) && rows[k].body.status == status
                 && rows[k].body.identity.candidateId == candidateId :: rows[k].body.identity.id
  }

  lemma StandingMeaning(rows: seq<Row>, candidateId: Name, status: Status, id: Name)
    ensures id in Standing(rows, candidateId, status) <==>
              && id in LatestRows(rows) && LatestRows(rows)[id].body.status == status
              && LatestRows(rows)[id].body.identity.candidateId == candidateId
  {
    var latest := NewestEndsHistory(rows, id);
    LatestIsLastOfHistory(rows, id);
    if id in LatestRows(rows) {
      assert Newest(rows, rows[latest].body.identity.id, latest) && rows[latest] == LatestRows(rows)[id];
    }
    forall k: nat | Newest(rows, id, k) ensures k == latest && id in LatestRows(rows) {
      assert !Unseen(rows, id);
      NewestIsUnique(rows, id, k, latest);
    }
  }

  lemma StandingIsCounted(index: Index, candidateId: Name, binding: Binding, status: Status)
    requires Inv(index) && BindingOf(index.store, candidateId) == Some(binding)
    ensures |Standing(index.rows, candidateId, status)| ==
            |WithStatus(Members(LatestRows(index.rows).Values, Group(candidateId, binding)), status)|
  {
    var latest, ids := LatestRows(index.rows), Standing(index.rows, candidateId, status);
    forall id
      ensures id in ids <==>
        id in latest && latest[id].body.status == status && latest[id].body.identity.candidateId == candidateId
    {
      StandingMeaning(index.rows, candidateId, status, id);
    }
    forall id | id in latest
      ensures latest[id].body.identity.id == id
      ensures BindingOf(index.store, latest[id].body.identity.candidateId) == Some(latest[id].body.identity.binding)
    {
      LatestIsSound(index, id);
    }
    LatestRowsAreDistinct(latest, ids);
    MembersWithStatus(latest, ids, status, index.store, candidateId, binding);
  }

  /** A candidate's statistics count its contradictions by the status of their newest events. */
  lemma StatisticsMeaning(index: Index, candidateId: Name, binding: Binding)
    requires Inv(index) && BindingOf(index.store, candidateId) == Some(binding)
    ensures var s := StatisticsOf(LatestRows(index.rows).Values, Group(candidateId, binding));
            && s.open == |Standing(index.rows, candidateId, Open)|
            && s.resolved == |Standing(index.rows, candidateId, Resolved)|
            && s.dismissed == |Standing(index.rows, candidateId, Dismissed)|
            && s.total == s.open + s.resolved + s.dismissed
  {
    StandingIsCounted(index, candidateId, binding, Open);
    StandingIsCounted(index, candidateId, binding, Resolved);
    StandingIsCounted(index, candidateId, binding, Dismissed);
    GroupPartition(LatestRows(index.rows).Values, Group(candidateId, binding));
  }
}
