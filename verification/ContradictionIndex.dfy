/** The contradiction index as it runs: a table appended to under compare-and-swap, and scanned in single passes. */
module ContradictionIndex {
  import opened Names
  import opened Wrappers
  import opened HashChain
  import opened LearningStore
  import opened Checkpoint
  import opened Contradictions
  import opened ContradictionLaws
  import opened ContradictionRuns
  import opened RecordLaws
  import opened Counting
  import opened Ordering

  /** The one-pass checker, carrying the previous digest, the states so far and the failures so far. */
  method VerifyTable(rows: seq<Row>, store: Store) returns (failures: seq<Failure>, head: Digest<EventBody>)
    ensures failures == Check(rows, store)
    ensures head == Head(rows)
    ensures failures == [] <==> |rows| <= MAX_EVENTS && SoundRows(rows, store) && AllLifecycles(rows)
  {
    var capacity := if |rows| > MAX_EVENTS then [EventCapacityExceeded] else [];
    var found: seq<Failure> := [];
    var states: map<Name, EventBody> := map[];
    head := Genesis;
    for i := 0 to |rows|
      invariant head == Head(rows[..i])
      invariant states == StatesAfter(rows[..i])
      invariant found == FailuresOf(rows[..i], store)
    {
      var row := rows[i];
      assert rows[..i + 1][..i] == rows[..i];
      found := found + RowFailures(row, i + 1, head, states, store);
      states := NextStates(row, states);
      head := row.digest;
    }
    assert rows[..|rows|] == rows;
    failures := capacity + found;
    CheckerMeaning(rows, store);
  }

  class AdaptiveLearningContradictionIndex {
    var events: seq<Row>

    constructor ()
      ensures events == []
    {
      events := [];
    }

    /** Everything that is checked before the lifecycle rules. */
    method Admit(store: Store, request: Request) returns (r: Result<Binding, IndexError>)
      ensures r == Precheck(events, store, request)
    {
      var record := request.record;
      if !record.Valid() {
        return Err(InvalidRecord);
      }
      if !record.status.Open? && record.resolvedAt.value.instant < record.createdAt.instant {
        return Err(ResolutionPredatesCreation);
      }
      if request.checkpoint.Err? {
        return Err(CheckpointInvalid);
      }
      if !LedgerIntact(store) {
        return Err(LedgerFailed);
      }
      var failures, head := VerifyTable(events, store);
      if failures != [] {
        return Err(IndexIntegrityFailed);
      }
      if head != request.expectedHead {
        return Err(HeadChanged);
      }
      var bound := BindingOf(store, record.candidateId);
      if bound.None? {
        return Err(CandidateNotFound);
      }
      if bound.value.candidateSha != request.expectedCandidate {
        return Err(CandidateShaChanged);
      }
      r := Ok(bound.value);
    }

    /** Append the event if every check passes; a replay returns the row recorded before. */
    method Record(store: Store, request: Request) returns (r: Result<Row, IndexError>)
      modifies this
      ensures events == RecordInto(old(events), store, request)
      ensures r == AnswerOf(old(events), store, request)
      ensures old(Inv(Index(events, store))) ==>
                Inv(Index(events, store)) && Answered(Index(old(events), store), request, events, r)
    {
      RecordMeaning(events, store, request);
      var binding := Admit(store, request);
      if binding.Err? {
        return Err(binding.error);
      }
      var decision := DecideTransition(events, request, binding.value);
      if decision.Some? {
        DecisionIsNoInsert(events, request, binding.value);
        return if decision.value.Refuse? then Err(decision.value.error) else Ok(decision.value.row);
      }
      if |events| + 1 > MAX_EVENTS {
        return Err(EventCapacity);
      }
      AdmittedCheckpoint(events, store, request);
      var row := Seal(BodyFor(events, request, binding.value, request.checkpoint.value), Head(events));
      events := events + [row];
      r := Ok(row);
    }

    /** The open contradictions of a candidate, in order of their ids. */
    method OpenForCandidate(store: Store, candidateId: Name) returns (r: Result<seq<Row>, IndexError>)
      ensures r.Ok? ==>
                && Check(events, store) == [] && BindingOf(store, candidateId).Some?
                && |r.value| == |OpenFor(events, candidateId)| <= MAX_OPEN_PER_CANDIDATE
                && ListsOpen(r.value, events, candidateId)
      ensures Inv(Index(events, store)) ==> (r.Ok? <==> BindingOf(store, candidateId).Some?)
    {
      if Inv(Index(events, store)) {
        InvPassesChecker(Index(events, store));
      }
      if !LedgerIntact(store) {
        return Err(LedgerFailed);
      }
      var failures, head := VerifyTable(events, store);
      if failures != [] {
        return Err(IndexIntegrityFailed);
      }
      if BindingOf(store, candidateId).None? {
        return Err(CandidateNotFound);
      }
      var rows := SortedOpenRows(events, candidateId);
      if |rows| > MAX_OPEN_PER_CANDIDATE {
        return Err(OpenCapacityExceeded);
      }
      r := Ok(rows);
    }

    /** Group the latest rows by candidate and count them by status; no event is lost in the counts. */
    method Report(store: Store, maxGroups: nat) returns (r: Result<seq<Statistics>, IndexError>)
      ensures r.Ok? ==>
                && |r.value| <= maxGroups
                && Covers(GroupsOf(r.value), LatestRows(events).Values)
                && (forall s | s in r.value :: s == StatisticsOf(LatestRows(events).Values, s.group))
                && (forall i, j | 0 <= i < j < |r.value| ::
                      AtMost(r.value[i].group.candidateId, r.value[j].group.candidateId))
      ensures Inv(Index(events, store)) ==>
                (r.Ok? <==> |set row | row in LatestRows(events).Values :: GroupOf(row)| <= maxGroups)
      ensures r.Ok? && Inv(Index(events, store)) ==>
                SumBy(GroupsOf(r.value), TotalOf(LatestRows(events).Values))
                + SumBy(GroupsOf(r.value), ClosedOf(LatestRows(events).Values)) == |events|
    {
      if Inv(Index(events, store)) {
        InvPassesChecker(Index(events, store));
      }
      if !LedgerIntact(store) {
        return Err(LedgerFailed);
      }
      var failures, head := VerifyTable(events, store);
      if failures != [] {
        return Err(IndexIntegrityFailed);
      }
      var latest := LatestMap(events);
      var grouped := GroupRows(latest.Values);
      GroupsAreImages(latest.Values, grouped);
      if |grouped| > maxGroups {
        return Err(StatisticsCapacityExceeded);
      }
      GroupIsByCandidate(events, store);
      var output := CountGroups(latest.Values, grouped);
      if Inv(Index(events, store)) {
        StatisticsConserveHistory(Index(events, store), GroupsOf(output));
      }
      r := Ok(output);
    }
  }

  lemma DecisionIsNoInsert(rows: seq<Row>, request: Request, binding: Binding)
    requires DecideTransition(rows, request, binding).Some?
    ensures !DecideTransition(rows, request, binding).value.Insert?
  {
  }

  lemma AdmittedCheckpoint(rows: seq<Row>, store: Store, request: Request)
    requires Precheck(rows, store, request).Ok?
    ensures request.checkpoint.Ok?
  {
  }

  /** Exactly the open contradictions of the candidate, each by its latest row, in ascending order of id. */
  ghost predicate ListsOpen(listed: seq<Row>, rows: seq<Row>, candidateId: Name) {
    && SortedSetOf(IdsOf(listed), OpenFor(rows, candidateId), ByName())
    && forall row | row in listed ::
         row in rows && row.body.status.Open? && row.body.identity.candidateId == candidateId
  }

  function IdsOf(rows: seq<Row>): (ids: seq<Name>)
    ensures |ids| == |rows| && forall i | 0 <= i < |ids| :: ids[i] == rows[i].body.identity.id
  {
    seq(|rows|, i requires 0 <= i < |rows| => rows[i].body.identity.id)
  }

  method SortedOpenRows(rows: seq<Row>, candidateId: Name) returns (listed: seq<Row>)
    ensures |listed| == |OpenFor(rows, candidateId)|
    ensures ListsOpen(listed, rows, candidateId)
  {
    var latest := LatestRows(CandidateRows(rows, candidateId));
    ByNameIsTotal();
    var ids := Sort(OpenIds(latest), ByName());
    SortedLength(ids, OpenIds(latest), ByName());
    listed := [];
    for i := 0 to |ids|
      invariant |listed| == i
      invariant forall k | 0 <= k < i :: ids[k] in latest && listed[k] == latest[ids[k]]
    {
      assert ids[i] in OpenIds(latest);
      listed := listed + [latest[ids[i]]];
    }
    CandidateRowsAreOwn(rows, candidateId);
    forall id | id in latest
      ensures latest[id] in rows && latest[id].body.identity.candidateId == candidateId && latest[id].body.identity.id == id
    {
      LatestIsLastOfHistory(CandidateRows(rows, candidateId), id);
    }
    forall i | 0 <= i < |ids| ensures latest[ids[i]].body.status.Open? { assert ids[i] in OpenIds(latest); }
    assert IdsOf(listed) == ids;
  }

  method LatestMap(rows: seq<Row>) returns (latest: map<Name, Row>)
    ensures latest == LatestRows(rows)
  {
    latest := map[];
    for i := 0 to |rows|
      invariant latest == LatestRows(rows[..i])
    {
      assert rows[..i + 1][..i] == rows[..i];
      latest := latest[rows[i].body.identity.id := rows[i]];
    }
    assert rows[..|rows|] == rows;
  }

  method CountGroups(latest: set<Row>, grouped: map<Group, set<Row>>) returns (output: seq<Statistics>)
    requires forall g :: g in grouped <==> Members(latest, g) != {}
    requires forall g | g in grouped :: grouped[g] == Members(latest, g)
    requires forall a, b | a in latest && b in latest ::
               a.body.identity.candidateId == b.body.identity.candidateId ==> GroupOf(a) == GroupOf(b)
    ensures Covers(GroupsOf(output), latest)
    ensures |output| <= |grouped|
    ensures forall s | s in output :: s == StatisticsOf(latest, s.group)
    ensures forall i, j | 0 <= i < j < |output| :: AtMost(output[i].group.candidateId, output[j].group.candidateId)
  {
    ByNameIsTotal();
    var order := Sort(set g | g in grouped :: g.candidateId, ByName());
    output := CountInOrder(latest, grouped, order);
    OutputCovers(output, order, latest, grouped);
    forall i, j | 0 <= i < j < |output| ensures AtMost(output[i].group.candidateId, output[j].group.candidateId) {
      assert ByName()(order[i], order[j]);
    }
  }

  /** One entry for each candidate, in the given order. */
  method CountInOrder(latest: set<Row>, grouped: map<Group, set<Row>>, order: seq<Name>) returns (output: seq<Statistics>)
    requires forall g | g in grouped :: grouped[g] == Members(latest, g)
    requires forall name | name in order :: exists g :: g in grouped && g.candidateId == name
    ensures |output| == |order|
    ensures forall k | 0 <= k < |order| :: output[k].group in grouped && output[k].group.candidateId == order[k]
    ensures forall k | 0 <= k < |order| :: output[k] == StatisticsOf(latest, output[k].group)
  {
    output := [];
    for i := 0 to |order|
      invariant |output| == i
      invariant forall k | 0 <= k < i :: output[k].group in grouped && output[k].group.candidateId == order[k]
      invariant forall k | 0 <= k < i :: output[k] == StatisticsOf(latest, output[k].group)
    {
      assert order[i] in order;
      var g :| g in grouped && g.candidateId == order[i];
      var members := grouped[g];
      output := output + [Statistics(g, |members|, |WithStatus(members, Open)|, |WithStatus(members, Resolved)|,
                                     |WithStatus(members, Dismissed)|)];
    }
  }

  function GroupsOf(statistics: seq<Statistics>): (groups: seq<Group>)
    ensures |groups| == |statistics| && forall i | 0 <= i < |groups| :: groups[i] == statistics[i].group
  {
    seq(|statistics|, i requires 0 <= i < |statistics| => statistics[i].group)
  }

  /** Fill the group dictionary, one latest row at a time. */
  method GroupRows(latest: set<Row>) returns (grouped: map<Group, set<Row>>)
    ensures forall g :: g in grouped <==> Members(latest, g) != {}
    ensures forall g | g in grouped :: grouped[g] == Members(latest, g)
  {
    grouped := map[];
    var left := latest;
    while left != {}
      invariant left <= latest
      invariant forall g :: g in grouped <==> Members(latest - left, g) != {}
      invariant forall g | g in grouped :: grouped[g] == Members(latest - left, g)
      decreases left
    {
      var row :| row in left;
      var g := GroupOf(row);
      var members := if g in grouped then grouped[g] else {};
      ghost var done := latest - left;
      left := left - {row};
      assert latest - left == done + {row};
      assert forall h :: Members(done + {row}, h) == if h == g then Members(done, h) + {row} else Members(done, h);
      grouped := grouped[g := members + {row}];
    }
    assert latest - left == latest;
  }

  lemma GroupsAreImages(latest: set<Row>, grouped: map<Group, set<Row>>)
    requires forall g :: g in grouped <==> Members(latest, g) != {}
    ensures grouped.Keys == set row | row in latest :: GroupOf(row)
    ensures |grouped| == |set row | row in latest :: GroupOf(row)|
  {
    forall row | row in latest ensures GroupOf(row) in grouped {
      assert row in Members(latest, GroupOf(row));
    }
    forall g | g in grouped ensures g in (set row | row in latest :: GroupOf(row)) {
      var row :| row in Members(latest, g);
    }
    assert |grouped| == |grouped.Keys|;
  }

  lemma {:induction false} SortedLength<K(!new)>(keys: seq<K>, s: set<K>, leq: (K, K) -> bool)
    requires SortedSetOf(keys, s, leq)
    ensures |keys| == |s|
  {
    if keys == [] {
      assert s == {};
    } else {
      TailIsSorted(keys, s, leq);
      SortedLength(keys[1..], s - {keys[0]}, leq);
      assert keys[0] in s;
    }
  }

  lemma {:induction false} CandidateRowsAreOwn(rows: seq<Row>, candidateId: Name)
    ensures forall r | r in CandidateRows(rows, candidateId) :: r in rows && r.body.identity.candidateId == candidateId
  {
    if rows != [] {
      CandidateRowsAreOwn(rows[..|rows| - 1], candidateId);
    }
  }

  /** In a sound table the candidate id alone determines the group. */
  lemma GroupIsByCandidate(rows: seq<Row>, store: Store)
    requires SoundRows(rows, store)
    ensures forall a, b | a in LatestRows(rows).Values && b in LatestRows(rows).Values ::
              a.body.identity.candidateId == b.body.identity.candidateId ==> GroupOf(a) == GroupOf(b)
  {
    forall a | a in LatestRows(rows).Values
      ensures BindingOf(store, a.body.identity.candidateId) == Some(a.body.identity.binding)
    {
      var id :| id in LatestRows(rows) && LatestRows(rows)[id] == a;
      LatestIsLastOfHistory(rows, id);
      var k :| 0 <= k < |rows| && rows[k] == a;
      assert SoundRow(rows, k, store);
    }
  }

  lemma OutputCovers(output: seq<Statistics>, order: seq<Name>, latest: set<Row>, grouped: map<Group, set<Row>>)
    requires forall g :: g in grouped <==> Members(latest, g) != {}
    requires forall a, b | a in latest && b in latest ::
               a.body.identity.candidateId == b.body.identity.candidateId ==> GroupOf(a) == GroupOf(b)
    requires SortedSetOf(order, set g | g in grouped :: g.candidateId, ByName())
    requires |output| == |order|
    requires forall k | 0 <= k < |order| :: output[k].group in grouped && output[k].group.candidateId == order[k]
    ensures Covers(GroupsOf(output), latest)
    ensures |output| <= |grouped|
  {
    forall row | row in latest ensures GroupOf(row) in GroupsOf(output) {
      var g := GroupOf(row);
      assert row in Members(latest, g);
      assert g.candidateId in order;
      var k :| 0 <= k < |order| && order[k] == g.candidateId;
      var other := output[k].group;
      var witnessRow :| witnessRow in Members(latest, other);
      assert GroupsOf(output)[k] == g;
    }
    DistinctFit(GroupsOf(output), grouped.Keys);
  }

  lemma {:induction false} DistinctFit<K>(keys: seq<K>, s: set<K>)
    requires Distinct(keys) && forall k | k in keys :: k in s
    ensures |keys| <= |s|
  {
    if keys != [] {
      var n := |keys| - 1;
      forall k | k in keys[..n] ensures k in s - {keys[n]} {
        var i :| 0 <= i < n && keys[i] == k;
      }
      DistinctFit(keys[..n], s - {keys[n]});
    }
  }
}
