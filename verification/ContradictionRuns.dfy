/** Runs of `record` interleaved with learning-store operations: integrity, compare-and-swap, capacity, statistics. */
module ContradictionRuns {
  import opened Names
  import opened Wrappers
  import opened HashChain
  import opened LearningStore
  import opened Checkpoint
  import opened Contradictions
  import opened ContradictionLaws
  import opened Counting

  datatype Index = Index(rows: seq<Row>, store: Store)

  datatype Step = Recorded(request: Request) | StoreChanged(op: Operation, now: Name)

  function Apply(index: Index, step: Step): Index {
    match step
    case Recorded(request) => index.(rows := RecordInto(index.rows, index.store, request))
    case StoreChanged(op, now) =>
      match Perform(index.store, op, now)
      case Err(_) => index
      case Ok(store) => index.(store := store)
  }

  function Run(index: Index, steps: seq<Step>): Index {
    if steps == [] then index else Apply(Run(index, steps[..|steps| - 1]), steps[|steps| - 1])
  }

  function OpenFor(rows: seq<Row>, candidateId: Name): set<Name> {
    OpenIds(LatestRows(CandidateRows(rows, candidateId)))
  }

  ghost predicate OpenBounded(rows: seq<Row>) {
    forall candidateId :: |OpenFor(rows, candidateId)| <= MAX_OPEN_PER_CANDIDATE
  }

  ghost predicate Inv(index: Index) {
    && ValidStore(index.store)
    && |index.rows| <= MAX_EVENTS && SoundRows(index.rows, index.store)
    && AllStrict(index.rows)
    && OpenBounded(index.rows)
  }

  lemma StrictIsLifecycle(rows: seq<Row>)
    requires AllStrict(rows)
    ensures AllLifecycles(rows)
  {
  }

  /** The checker reports nothing on such an index. */
  lemma InvPassesChecker(index: Index)
    requires Inv(index)
    ensures Check(index.rows, index.store) == []
  {
    StrictIsLifecycle(index.rows);
    CheckerMeaning(index.rows, index.store);
  }

  // ---------- Each step ----------

  lemma SoundRowsSurviveStore(rows: seq<Row>, earlier: Store, later: Store)
    requires SoundRows(rows, earlier) && ValidStore(earlier) && ValidStore(later) && Extends(later, earlier)
    ensures SoundRows(rows, later)
  {
    forall i | 0 <= i < |rows| ensures SoundRow(rows, i, later) {
      assert SoundRow(rows, i, earlier);
      BindingIsStable(earlier, later, rows[i].body.identity.candidateId);
    }
  }

  lemma CandidateRowsExtend(rows: seq<Row>, row: Row, candidateId: Name)
    ensures CandidateRows(rows + [row], candidateId) ==
            if row.body.identity.candidateId == candidateId then CandidateRows(rows, candidateId) + [row]
            else CandidateRows(rows, candidateId)
  {
  }

  lemma OpenForExtends(rows: seq<Row>, row: Row, candidateId: Name)
    ensures var grown := rows + [row];
            var id := row.body.identity.id;
            if row.body.identity.candidateId != candidateId then OpenFor(grown, candidateId) == OpenFor(rows, candidateId)
            else if row.body.status.Open? then OpenFor(grown, candidateId) == OpenFor(rows, candidateId) + {id}
            else OpenFor(grown, candidateId) == OpenFor(rows, candidateId) - {id}
  {
    CandidateRowsExtend(rows, row, candidateId);
    var own := CandidateRows(rows, candidateId);
    LatestRowsExtend(own, row);
    OpenIdsUpdate(LatestRows(own), row);
  }

  lemma LatestRowsExtend(rows: seq<Row>, row: Row)
    ensures LatestRows(rows + [row]) == LatestRows(rows)[row.body.identity.id := row]
  {
  }

  lemma OpenIdsUpdate(latest: map<Name, Row>, row: Row)
    ensures OpenIds(latest[row.body.identity.id := row]) ==
            if row.body.status.Open? then OpenIds(latest) + {row.body.identity.id}
            else OpenIds(latest) - {row.body.identity.id}
  {
  }

  /** What the lifecycle decision guarantees about the row that it lets through. */
  lemma TransitionAdmits(rows: seq<Row>, request: Request, binding: Binding)
    requires DecideTransition(rows, request, binding).None?
    ensures var record := request.record;
            var history := RowsOf(rows, record.id);
            if history == [] then
              record.status.Open? && |OpenFor(rows, record.candidateId)| < MAX_OPEN_PER_CANDIDATE
            else
              var prior := history[|history| - 1];
              && !record.status.Open? && prior.body.status.Open?
              && prior.body.identity == ProjectedIdentity(record, binding)
  {
  }

  /** The row that an accepted request would add. */
  predicate Admissible(index: Index, body: EventBody) {
    && body.number == |index.rows| + 1 <= MAX_EVENTS
    && body.Intact()
    && BindingOf(index.store, body.identity.candidateId) == Some(body.identity.binding)
    && Extendable(RowsOf(index.rows, body.identity.id), Seal(body, Head(index.rows)))
    && (body.status.Open? ==> RowsOf(index.rows, body.identity.id) == []
                              && |OpenFor(index.rows, body.identity.candidateId)| < MAX_OPEN_PER_CANDIDATE)
  }

  /** What every check before the lifecycle decision has established. */
  lemma InsertPasses(index: Index, request: Request) returns (binding: Binding)
    requires Decide(index.rows, index.store, request).Insert?
    ensures request.record.Valid()
    ensures !request.record.status.Open? ==> request.record.createdAt.instant <= request.record.resolvedAt.value.instant
    ensures request.checkpoint.Ok? && request.expectedHead == Head(index.rows) && |index.rows| + 1 <= MAX_EVENTS
    ensures BindingOf(index.store, request.record.candidateId) == Some(binding)
    ensures DecideTransition(index.rows, request, binding).None?
    ensures Decide(index.rows, index.store, request).body == BodyFor(index.rows, request, binding, request.checkpoint.value)
  {
    binding := BindingOf(index.store, request.record.candidateId).value;
  }

  lemma InsertedBody(index: Index, request: Request)
    requires Decide(index.rows, index.store, request).Insert?
    ensures request.expectedHead == Head(index.rows)
    ensures Admissible(index, Decide(index.rows, index.store, request).body)
  {
    var binding := InsertPasses(index, request);
    TransitionAdmits(index.rows, request, binding);
    BodyIsAdmissible(index, request, binding, Decide(index.rows, index.store, request).body);
  }

  lemma BodyIsAdmissible(index: Index, request: Request, binding: Binding, body: EventBody)
    requires request.record.Valid() && request.checkpoint.Ok? && |index.rows| + 1 <= MAX_EVENTS
    requires !request.record.status.Open? ==> request.record.createdAt.instant <= request.record.resolvedAt.value.instant
    requires BindingOf(index.store, request.record.candidateId) == Some(binding)
    requires var record := request.record;
             var history := RowsOf(index.rows, record.id);
             if history == [] then
               record.status.Open? && |OpenFor(index.rows, record.candidateId)| < MAX_OPEN_PER_CANDIDATE
             else
               var prior := history[|history| - 1];
               && !record.status.Open? && prior.body.status.Open?
               && prior.body.identity == ProjectedIdentity(record, binding)
    requires body == BodyFor(index.rows, request, binding, request.checkpoint.value)
    ensures Admissible(index, body)
  {
  }

  lemma InsertKeepsInv(index: Index, body: EventBody)
    requires Inv(index)
    requires Admissible(index, body)
    ensures Inv(index.(rows := index.rows + [Seal(body, Head(index.rows))]))
  {
    var row := Seal(body, Head(index.rows));
    var grown := index.rows + [row];
    assert grown[..|grown| - 1] == index.rows;
    StrictIsLifecycle(index.rows);
    PrefixIsSound(grown, index.store);
    LifecyclesExtend(grown);
    StrictExtends(grown);
    forall candidateId ensures |OpenFor(grown, candidateId)| <= MAX_OPEN_PER_CANDIDATE {
      OpenForExtends(index.rows, row, candidateId);
      assert |OpenFor(index.rows, candidateId)| <= MAX_OPEN_PER_CANDIDATE;
      SubsetSize(OpenFor(index.rows, candidateId) - {body.identity.id}, OpenFor(index.rows, candidateId));
    }
  }

  lemma ApplyKeepsInv(index: Index, step: Step)
    requires Inv(index)
    ensures Inv(Apply(index, step))
    ensures index.rows <= Apply(index, step).rows
  {
    match step
    case Recorded(request) =>
      if Decide(index.rows, index.store, request).Insert? {
        InsertedBody(index, request);
        InsertKeepsInv(index, Decide(index.rows, index.store, request).body);
      }
    case StoreChanged(op, now) =>
      if Perform(index.store, op, now).Ok? {
        PerformKeepsValid(index.store, op, now);
        SoundRowsSurviveStore(index.rows, index.store, Perform(index.store, op, now).value);
      }
  }

  lemma {:induction false} RunKeepsInv(index: Index, steps: seq<Step>)
    requires Inv(index)
    ensures Inv(Run(index, steps))
    ensures index.rows <= Run(index, steps).rows
  {
    if steps != [] {
      RunKeepsInv(index, steps[..|steps| - 1]);
      ApplyKeepsInv(Run(index, steps[..|steps| - 1]), steps[|steps| - 1]);
    }
  }

  /**
    From the empty table, whatever is recorded and whatever the learning store does in between,
    the checker reports nothing, every contradiction is open alone or open and then closed
    once, and no candidate has more than 128 open contradictions.
  */
  lemma EveryRunVerifies(store: Store, steps: seq<Step>)
    requires ValidStore(store)
    ensures var after := Run(Index([], store), steps);
            && Check(after.rows, after.store) == []
            && (forall id :: StrictLifecycle(RowsOf(after.rows, id)))
            && (forall candidateId :: |OpenFor(after.rows, candidateId)| <= MAX_OPEN_PER_CANDIDATE)
  {
    var start := Index([], store);
    forall candidateId ensures |OpenFor([], candidateId)| <= MAX_OPEN_PER_CANDIDATE {
      assert OpenFor([], candidateId) == {};
    }
    RunKeepsInv(start, steps);
    InvPassesChecker(Run(start, steps));
  }

  // ---------- Compare and swap on the head ----------

  /** The step appended an event. */
  predicate Appends(index: Index, step: Step) {
    step.Recorded? && Apply(index, step).rows != index.rows
  }

  lemma SoundRowsAreChained(index: Index)
    requires Inv(index)
    ensures Chained(index.rows)
  {
    forall k | 0 <= k < |index.rows| ensures Links(index.rows, k) { assert SoundRow(index.rows, k, index.store); }
  }

  /** Of all calls that carry one expected head, at most one in the whole run appends. */
  lemma AtMostOneAppendPerHead(index: Index, steps: seq<Step>, i: nat, j: nat)
    requires Inv(index) && i < j < |steps|
    requires Appends(Run(index, steps[..i]), steps[i]) && Appends(Run(index, steps[..j]), steps[j])
    ensures steps[i].request.expectedHead != steps[j].request.expectedHead
  {
    var first := Run(index, steps[..i]);
    var second := Run(index, steps[..j]);
    RunKeepsInv(index, steps[..j]);
    AppendExpectsHead(first, steps[i]);
    AppendExpectsHead(second, steps[j]);
    RunAdvances(index, steps, i, j);
    GrownHeadsDiffer(first, second);
  }

  lemma AppendExpectsHead(index: Index, step: Step)
    requires Appends(index, step)
    ensures step.request.expectedHead == Head(index.rows)
  {
    InsertedBody(index, step.request);
  }

  lemma GrownHeadsDiffer(first: Index, second: Index)
    requires Inv(second) && first.rows < second.rows
    ensures Head(first.rows) != Head(second.rows)
  {
    SoundRowsAreChained(second);
    HeadsNeverRepeat(second.rows, |first.rows|, |second.rows|);
    assert second.rows[..|second.rows|] == second.rows;
  }

  lemma StepGrows(index: Index, step: Step)
    ensures index.rows <= Apply(index, step).rows
    ensures Appends(index, step) ==> index.rows < Apply(index, step).rows
  {
  }

  /** The tables that a run passes through. */
  ghost function TablesOf(index: Index, steps: seq<Step>): (tables: seq<seq<Row>>)
    ensures |tables| == |steps| + 1 && forall i | 0 <= i <= |steps| :: tables[i] == Run(index, steps[..i]).rows
  {
    seq(|steps| + 1, i requires 0 <= i <= |steps| => Run(index, steps[..i]).rows)
  }

  lemma OneTableGrows(index: Index, steps: seq<Step>, i: nat)
    requires i < |steps|
    ensures TablesOf(index, steps)[i] <= TablesOf(index, steps)[i + 1]
    ensures Appends(Run(index, steps[..i]), steps[i]) ==> TablesOf(index, steps)[i] < TablesOf(index, steps)[i + 1]
  {
    StepGrows(Run(index, steps[..i]), steps[i]);
    assert steps[..i + 1][..i] == steps[..i];
  }

  lemma RunAdvances(index: Index, steps: seq<Step>, i: nat, j: nat)
    requires i < j <= |steps| && Appends(Run(index, steps[..i]), steps[i])
    ensures Run(index, steps[..i]).rows < Run(index, steps[..j]).rows
  {
    var tables := TablesOf(index, steps);
    forall k | 0 <= k < |steps| ensures tables[k] <= tables[k + 1] { OneTableGrows(index, steps, k); }
    OneTableGrows(index, steps, i);
    PrefixesChain(tables, i + 1, j);
  }

  /** A call with a stale expected head appends nothing. */
  lemma StaleHeadAppendsNothing(index: Index, request: Request)
    requires request.expectedHead != Head(index.rows)
    ensures RecordInto(index.rows, index.store, request) == index.rows
    ensures Decide(index.rows, index.store, request).Refuse?
  {
  }

  // ---------- The checker alone allows a second open event ----------

  lemma OneStagedCandidate() returns (store: Store, binding: Binding)
    ensures ValidStore(store) && BindingOf(store, "c") == Some(binding)
  {
    var c := Candidate("c", Create, None, None, Knowledge("general", "memory", "", "", "", "", "", "learner_managed", ""),
                       [], [], "");
    var empty := Store([], []);
    assert PerformStage(empty, c, "", "", "").Ok?;
    StageKeepsValid(empty, c, "", "", "");
    store := PerformStage(empty, c, "", "", "").value;
    assert store.versions[0] == StageRow(empty, c, "");
    BindingOfRow(store, 0);
    binding := BindingOf(store, "c").value;
  }

  lemma TwoRowsOfOne(rows: seq<Row>)
    requires |rows| == 2 && rows[0].body.identity == rows[1].body.identity
    requires rows[0].body.status.Open? && rows[1].body.status.Open?
    ensures AllLifecycles(rows) && !AllStrict(rows)
  {
    var own := rows[0].body.identity.id;
    forall id ensures RowsOf(rows, id) == if id == own then rows else [] {
      assert rows[..1] == [rows[0]] && rows[..1][..0] == [];
      assert RowsOf(rows[..1], id) == if id == own then [rows[0]] else [];
    }
    forall id ensures Lifecycle(RowsOf(rows, id)) {}
    assert !StrictLifecycle(RowsOf(rows, own));
  }

  /** A table that the checker passes although one contradiction was opened twice. */
  lemma ReopenedTablePassesChecker() returns (rows: seq<Row>, store: Store)
    ensures ValidStore(store) && Check(rows, store) == []
    ensures !AllStrict(rows)
  {
    var binding: Binding;
    store, binding := OneStagedCandidate();
    var record := Contradiction("x", "c", [Evidence("r", "s")], "", Open, Stamp(0, ""), None);
    var identity := ProjectedIdentity(record, binding);
    var first := Seal(EventBody(1, Open, identity, RecordSha(record), None, "", "", Genesis), Genesis);
    var second := Seal(EventBody(2, Open, identity, RecordSha(record), None, "", "", Genesis), first.digest);
    rows := [first, second];
    assert rows[..0] == [] && rows[..1] == [first];
    assert SoundRow(rows, 0, store) && SoundRow(rows, 1, store);
    TwoRowsOfOne(rows);
    CheckerMeaning(rows, store);
  }

  // ---------- Statistics conserve history ----------

  function Terminal(latest: map<Name, Row>): set<Name> {
    set id | id in latest && !latest[id].body.status.Open?
  }

  lemma {:induction false} LatestIsLastOfHistory(rows: seq<Row>, id: Name)
    ensures id in LatestRows(rows) <==> RowsOf(rows, id) != []
    ensures id in LatestRows(rows) ==> LatestRows(rows)[id] == RowsOf(rows, id)[|RowsOf(rows, id)| - 1]
    ensures id in LatestRows(rows) ==> LatestRows(rows)[id] in rows && LatestRows(rows)[id].body.identity.id == id
  {
    if rows != [] {
      LatestIsLastOfHistory(rows[..|rows| - 1], id);
    }
  }

  /** One event per contradiction, and one more per closed contradiction. */
  lemma {:induction false} EventsAddUp(rows: seq<Row>)
    requires AllStrict(rows)
    ensures |rows| == |LatestRows(rows).Keys| + |Terminal(LatestRows(rows))|
  {
    if rows != [] {
      var n := |rows| - 1;
      var id := rows[n].body.identity.id;
      var earlier := LatestRows(rows[..n]);
      StrictIsLifecycle(rows);
      LifecyclesExtend(rows);
      StrictExtends(rows);
      EventsAddUp(rows[..n]);
      LatestIsLastOfHistory(rows[..n], id);
      OneMoreEvent(earlier, rows[n]);
    }
  }

  /** The latest rows after one more event: a new contradiction, or one more closed. */
  lemma OneMoreEvent(earlier: map<Name, Row>, row: Row)
    requires var id := row.body.identity.id;
             if id in earlier then earlier[id].body.status.Open? && !row.body.status.Open? else row.body.status.Open?
    ensures var latest := earlier[row.body.identity.id := row];
            |latest.Keys| + |Terminal(latest)| == |earlier.Keys| + |Terminal(earlier)| + 1
  {
    var id := row.body.identity.id;
    var latest := earlier[id := row];
    if id in earlier {
      assert Terminal(latest) == Terminal(earlier) + {id};
      assert latest.Keys == earlier.Keys;
    } else {
      assert Terminal(latest) == Terminal(earlier);
      assert latest.Keys == earlier.Keys + {id};
    }
  }

  /** Distinct contradictions have distinct latest rows. */
  lemma {:induction false} LatestRowsAreDistinct(latest: map<Name, Row>, ids: set<Name>)
    requires ids <= latest.Keys
    requires forall id | id in latest :: latest[id].body.identity.id == id
    ensures |set id | id in ids :: latest[id]| == |ids|
  {
    if ids != {} {
      var id :| id in ids;
      LatestRowsAreDistinct(latest, ids - {id});
      assert (set i | i in ids :: latest[i]) == (set i | i in ids - {id} :: latest[i]) + {latest[id]};
    }
  }

  ghost predicate Covers(groups: seq<Group>, latest: set<Row>) {
    Distinct(groups) && forall row | row in latest :: GroupOf(row) in groups
  }

  lemma StatusesPartition(members: set<Row>)
    ensures var open, resolved, dismissed := WithStatus(members, Open), WithStatus(members, Resolved), WithStatus(members, Dismissed);
            members == open + resolved + dismissed && open !! resolved && (open + resolved) !! dismissed
  {
  }

  /** A group's counts split its members by status. */
  lemma GroupPartition(latest: set<Row>, group: Group)
    ensures var s := StatisticsOf(latest, group); s.total == s.open + s.resolved + s.dismissed
  {
    var members := Members(latest, group);
    var open, resolved, dismissed := WithStatus(members, Open), WithStatus(members, Resolved), WithStatus(members, Dismissed);
    StatusesPartition(members);
    assert |open + resolved| == |open| + |resolved|;
    assert |open + resolved + dismissed| == |open + resolved| + |dismissed|;
  }

  ghost function Closed(latest: set<Row>): set<Row> {
    set row | row in latest && !row.body.status.Open?
  }

  ghost function TotalOf(latest: set<Row>): Group -> nat {
    g => StatisticsOf(latest, g).total
  }

  ghost function ClosedOf(latest: set<Row>): Group -> nat {
    g => StatisticsOf(latest, g).resolved + StatisticsOf(latest, g).dismissed
  }

  lemma TotalsAddUp(latest: set<Row>, groups: seq<Group>)
    requires Covers(groups, latest)
    ensures SumBy(groups, TotalOf(latest)) == |latest|
  {
    PartitionCount(latest, GroupOf, groups);
    forall g ensures TotalOf(latest)(g) == PartSize(latest, GroupOf)(g) {
      assert Members(latest, g) == Part(latest, GroupOf, g);
    }
    SumByCongruence(groups, TotalOf(latest), PartSize(latest, GroupOf));
  }

  lemma ClosedMembers(latest: set<Row>, g: Group)
    ensures ClosedOf(latest)(g) == PartSize(Closed(latest), GroupOf)(g)
  {
    ClosedParts(latest, g);
  }

  lemma ClosedParts(latest: set<Row>, g: Group)
    ensures var members := Members(latest, g);
            Part(Closed(latest), GroupOf, g) == WithStatus(members, Resolved) + WithStatus(members, Dismissed)
  {
  }

  lemma ClosedAddUp(latest: set<Row>, groups: seq<Group>)
    requires Covers(groups, latest)
    ensures SumBy(groups, ClosedOf(latest)) == |Closed(latest)|
  {
    PartitionCount(Closed(latest), GroupOf, groups);
    forall g ensures ClosedOf(latest)(g) == PartSize(Closed(latest), GroupOf)(g) {
      ClosedMembers(latest, g);
    }
    SumByCongruence(groups, ClosedOf(latest), PartSize(Closed(latest), GroupOf));
  }

  /**
    The statistics lose no event: over all groups, totals add up to the number of
    contradictions, and totals plus resolutions plus dismissals to the number of events.
  */
  lemma StatisticsConserveHistory(index: Index, groups: seq<Group>)
    requires Inv(index)
    requires Covers(groups, LatestRows(index.rows).Values)
    ensures var latest := LatestRows(index.rows);
            && SumBy(groups, TotalOf(latest.Values)) == |latest.Keys|
            && SumBy(groups, TotalOf(latest.Values)) + SumBy(groups, ClosedOf(latest.Values)) == |index.rows|
  {
    var latest := LatestRows(index.rows);
    forall id | id in latest ensures latest[id].body.identity.id == id { LatestIsLastOfHistory(index.rows, id); }
    TotalsAddUp(latest.Values, groups);
    ClosedAddUp(latest.Values, groups);
    EventsAddUp(index.rows);
    LatestRowsAreDistinct(latest, latest.Keys);
    LatestRowsAreDistinct(latest, Terminal(latest));
    assert latest.Values == set id | id in latest.Keys :: latest[id];
    assert Closed(latest.Values) == set id | id in Terminal(latest) :: latest[id];
  }

  // ---------- The per-candidate view agrees with the statistics ----------

  /** All events of one contradiction concern one candidate, so its latest row is the same in both views. */
  lemma {:induction false} LatestOfCandidate(rows: seq<Row>, candidateId: Name, id: Name)
    requires AllLifecycles(rows)
    ensures id in LatestRows(CandidateRows(rows, candidateId)) <==>
              id in LatestRows(rows) && LatestRows(rows)[id].body.identity.candidateId == candidateId
    ensures id in LatestRows(CandidateRows(rows, candidateId)) ==>
              LatestRows(CandidateRows(rows, candidateId))[id] == LatestRows(rows)[id]
  {
    if rows != [] {
      var n := |rows| - 1;
      LifecyclesExtend(rows);
      LatestOfCandidate(rows[..n], candidateId, id);
      LatestIsLastOfHistory(rows[..n], id);
      CandidateRowsExtend(rows[..n], rows[n], candidateId);
      assert rows[..n] + [rows[n]] == rows;
      LatestRowsExtend(CandidateRows(rows[..n], candidateId), rows[n]);
      LatestRowsExtend(rows[..n], rows[n]);
    }
  }

  lemma LatestIsSound(index: Index, id: Name)
    requires Inv(index) && id in LatestRows(index.rows)
    ensures var identity := LatestRows(index.rows)[id].body.identity;
            identity.id == id && BindingOf(index.store, identity.candidateId) == Some(identity.binding)
  {
    LatestIsLastOfHistory(index.rows, id);
    var k :| 0 <= k < |index.rows| && index.rows[k] == LatestRows(index.rows)[id];
    assert SoundRow(index.rows, k, index.store);
  }

  lemma MembersWithStatus(latest: map<Name, Row>, ids: set<Name>, status: Status, store: Store, candidateId: Name,
                          binding: Binding)
    requires BindingOf(store, candidateId) == Some(binding)
    requires forall id :: id in ids <==>
               id in latest && latest[id].body.status == status && latest[id].body.identity.candidateId == candidateId
    requires forall id | id in latest ::
               BindingOf(store, latest[id].body.identity.candidateId) == Some(latest[id].body.identity.binding)
    ensures WithStatus(Members(latest.Values, Group(candidateId, binding)), status) == set id | id in ids :: latest[id]
  {
  }

  /** What `open_for_candidate` lists is what the statistics count as open for that candidate. */
  lemma OpenViewsAgree(index: Index, candidateId: Name, binding: Binding)
    requires Inv(index)
    requires BindingOf(index.store, candidateId) == Some(binding)
    ensures |OpenFor(index.rows, candidateId)| ==
            StatisticsOf(LatestRows(index.rows).Values, Group(candidateId, binding)).open
  {
    var latest := LatestRows(index.rows);
    var open := OpenFor(index.rows, candidateId);
    StrictIsLifecycle(index.rows);
    forall id ensures id in open <==>
        id in latest && latest[id].body.status.Open? && latest[id].body.identity.candidateId == candidateId
    {
      LatestOfCandidate(index.rows, candidateId, id);
    }
    forall id | id in latest
      ensures latest[id].body.identity.id == id
      ensures BindingOf(index.store, latest[id].body.identity.candidateId) == Some(latest[id].body.identity.binding)
    {
      LatestIsSound(index, id);
    }
    LatestRowsAreDistinct(latest, open);
    MembersWithStatus(latest, open, Open, index.store, candidateId, binding);
  }
}
