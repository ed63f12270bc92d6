/**
  Curation proposals: effectiveness signals bound to the active knowledge version of an
  authenticated store. The compiler only reads; every read may see a different moment.
*/
module Curation {
  import opened Names
  import opened Wrappers
  import opened Counting
  import opened Ordering
  import opened LearningStore
  import opened Checkpoint
  import E = Effectiveness
  import M = RevisionMetrics

  datatype CurationAction = ObserveMore | KeepActiveReview | ReviseOrArchiveReview | DomainReviseOrArchiveReview

  datatype Counters = Counters(
    tasks: int, receipts: int, isolated: int, confounded: int,
    success: int, failed: int, waiting: int, pending: int, unverified: int,
    isolatedSuccess: int, isolatedFailed: int, isolatedWaiting: int, isolatedUnverified: int)

  datatype CurationError =
    | CountInvalid | ObservationPartition | OutcomePartition | IsolatedSuccessExceeds | IsolatedFailedExceeds
    | IsolatedWaitingExceeds | IsolatedUnverifiedExceeds | IsolatedOutcomesExceed
    | InvalidDomain | DuplicateSignal | CheckpointRefused(cause: CheckpointError) | StoreRefused(reason: StoreError)
    | TargetNotActive | LevelNotActive | TargetShaMismatch | TargetDomainMismatch | CheckpointChanged
    | ActionMismatch | ReviewMismatch | ReasonsInvalid | ProposalIdentityMismatch
    | InvalidSequence | NotSorted | DuplicateProposal | SnapshotBindingMismatch

  type Curated<T> = Result<T, CurationError>

  // ---------- Evidence ----------

  function CountersOf(s: E.Signal): Counters {
    Counters(s.tasks, s.receipts, s.isolated, s.confounded, s.success, s.failed, s.waiting, s.pending, s.unverified,
             s.isolatedSuccess, s.isolatedFailed, s.isolatedWaiting, s.isolatedUnverified)
  }

  function ValidateCounters(c: Counters): Curated<Counters> {
    if c.tasks < 0 || c.receipts < 0 || c.isolated < 0 || c.confounded < 0 || c.success < 0 || c.failed < 0
       || c.waiting < 0 || c.pending < 0 || c.unverified < 0 || c.isolatedSuccess < 0 || c.isolatedFailed < 0
       || c.isolatedWaiting < 0 || c.isolatedUnverified < 0
    then Err(CountInvalid)
    else if c.isolated + c.confounded != c.tasks then Err(ObservationPartition)
    else if c.success + c.failed + c.waiting + c.pending + c.unverified != c.tasks then Err(OutcomePartition)
    else if c.isolatedSuccess > c.success then Err(IsolatedSuccessExceeds)
    else if c.isolatedFailed > c.failed then Err(IsolatedFailedExceeds)
    else if c.isolatedWaiting > c.waiting then Err(IsolatedWaitingExceeds)
    else if c.isolatedUnverified > c.unverified then Err(IsolatedUnverifiedExceeds)
    else if c.isolatedSuccess + c.isolatedFailed + c.isolatedWaiting + c.isolatedUnverified > c.isolated
    then Err(IsolatedOutcomesExceed)
    else Ok(c)
  }

  function MetricsOf(c: Counters): M.Metrics {
    map[M.UniqueTasks := c.tasks, M.IsolatedTasks := c.isolated, M.ConfoundedTasks := c.confounded,
        M.IsolatedSuccess := c.isolatedSuccess, M.IsolatedFailed := c.isolatedFailed,
        M.IsolatedWaiting := c.isolatedWaiting, M.IsolatedUnverified := c.isolatedUnverified]
  }

  // ---------- Proposals ----------

  /** The signal as the first payload schema shows it, without validator counters. */
  function Published(s: E.Signal): E.Signal {
    s.(resolved := 0, passed := 0, isolatedResolved := 0, isolatedPassed := 0)
  }

  datatype SnapshotSha = SnapshotSha(signals: seq<E.Signal>, receiptCount: nat, taskCount: nat)

  datatype SignalSha = SignalSha(signal: E.Signal)

  function ShaOfSnapshot(snapshot: E.Snapshot): SnapshotSha {
    SnapshotSha(seq(|snapshot.signals|, i requires 0 <= i < |snapshot.signals| => Published(snapshot.signals[i])),
                snapshot.receiptCount, snapshot.taskCount)
  }

  datatype Active = Active(itemId: Name, sha: Name, candidateSha: CandidateSha, level: Level, domain: Name)

  datatype Reason =
    | SignalReason(advice: E.Advice) | ActionReason(action: CurationAction) | LevelReason(level: Level)
    | HumanReviewRequired | DomainReviewRequired

  datatype Content = Content(
    source: SnapshotSha, signal: SignalSha, active: Active, advice: E.Advice, action: CurationAction,
    evidence: Counters, human: bool, domainReview: bool, reasons: seq<Reason>)

  /** A proposal id is the digest of the proposal's content. */
  datatype ProposalId = ProposalId(content: Content)

  datatype Proposal = Proposal(id: ProposalId, content: Content)

  datatype ProposalSet = ProposalSet(source: SnapshotSha, checkpoint: Record, proposals: seq<Proposal>)

  /** Digests in their textual form. */
  datatype Texts = Texts(knowledge: KnowledgeSha -> Name, proposal: ProposalId -> Name)

  function ActionFor(advice: E.Advice): CurationAction {
    match advice
    case Insufficient => ObserveMore
    case Support => KeepActiveReview
    case Review => ReviseOrArchiveReview
    case DomainReview => DomainReviseOrArchiveReview
  }

  predicate SensitiveDomain(domain: Name) {
    domain in {"network", "security"}
  }

  /** Whether a human, and whether a domain expert, must review. */
  function ReviewRequirements(domain: Name, level: Level, action: CurationAction): (bool, bool) {
    var human := !action.ObserveMore? || level.EnterpriseLevel?;
    var domainReview := action.DomainReviseOrArchiveReview?
                        || (SensitiveDomain(domain) && (!action.ObserveMore? || level.EnterpriseLevel?));
    (if domainReview then true else human, domainReview)
  }

  function Reasons(advice: E.Advice, action: CurationAction, level: Level, human: bool, domainReview: bool): (r: seq<Reason>)
    ensures Distinct(r) && 3 <= |r| <= 5
    ensures (HumanReviewRequired in r <==> human) && (DomainReviewRequired in r <==> domainReview)
  {
    [SignalReason(advice), ActionReason(action), LevelReason(level)]
    + (if human then [HumanReviewRequired] else [])
    + (if domainReview then [DomainReviewRequired] else [])
  }

  function CreateProposal(source: SnapshotSha, active: Active, signal: E.Signal): Curated<Proposal> {
    var action := ActionFor(signal.advice);
    var (human, domainReview) := ReviewRequirements(active.domain, active.level, action);
    var reasons := Reasons(signal.advice, action, active.level, human, domainReview);
    var evidence :- ValidateCounters(CountersOf(signal));
    var content := Content(source, SignalSha(Published(signal)), active, signal.advice, action, evidence, human,
                           domainReview, reasons);
    ValidateProposal(Proposal(ProposalId(content), content))
  }

  predicate ActiveLevel(level: Level) {
    level.ApprovedLevel? || level.EnterpriseLevel?
  }

  function ValidateProposal(p: Proposal): Curated<Proposal> {
    var c := p.content;
    if !ActiveLevel(c.active.level) then Err(LevelNotActive)
    else if c.active.domain !in E.DOMAINS then Err(InvalidDomain)
    else if c.action != ActionFor(c.advice) then Err(ActionMismatch)
    else if (c.human, c.domainReview) != ReviewRequirements(c.active.domain, c.active.level, c.action)
    then Err(ReviewMismatch)
    else
      var _ :- ValidateCounters(c.evidence);
      if c.reasons == [] || |c.reasons| > 8 || !Distinct(c.reasons) then Err(ReasonsInvalid)
      else if p.id != ProposalId(c) then Err(ProposalIdentityMismatch)
      else Ok(p)
  }

  predicate ProposalAtMost(texts: Texts, p: Proposal, q: Proposal) {
    var a, b := p.content.active, q.content.active;
    if a.itemId != b.itemId then AtMost(a.itemId, b.itemId)
    else if a.sha != b.sha then AtMost(a.sha, b.sha)
    else AtMost(texts.proposal(p.id), texts.proposal(q.id))
  }

  function ByProposal(texts: Texts): (Proposal, Proposal) -> bool {
    (p: Proposal, q: Proposal) => ProposalAtMost(texts, p, q)
  }

  lemma ByProposalIsPreorder(texts: Texts)
    ensures Preorder(ByProposal(texts))
  {
    var leq := ByProposal(texts);
    forall p, q ensures leq(p, q) || leq(q, p) {
      var a, b := p.content.active, q.content.active;
      AtMostTotal(a.itemId, b.itemId);
      AtMostTotal(a.sha, b.sha);
      AtMostTotal(texts.proposal(p.id), texts.proposal(q.id));
    }
    forall p, q, r | leq(p, q) && leq(q, r) ensures leq(p, r) {
      ProposalOrderIsTransitive(texts, p, q, r);
    }
  }

  lemma ProposalOrderIsTransitive(texts: Texts, p: Proposal, q: Proposal, r: Proposal)
    requires ProposalAtMost(texts, p, q) && ProposalAtMost(texts, q, r)
    ensures ProposalAtMost(texts, p, r)
  {
    var a, b, c := p.content.active, q.content.active, r.content.active;
    if AtMost(a.itemId, b.itemId) && AtMost(b.itemId, c.itemId) {
      AtMostTransitive(a.itemId, b.itemId, c.itemId);
      if a.itemId == c.itemId { AtMostAntisymmetric(a.itemId, b.itemId); }
    }
    if AtMost(a.sha, b.sha) && AtMost(b.sha, c.sha) {
      AtMostTransitive(a.sha, b.sha, c.sha);
      if a.sha == c.sha { AtMostAntisymmetric(a.sha, b.sha); }
    }
    var x, y, z := texts.proposal(p.id), texts.proposal(q.id), texts.proposal(r.id);
    if AtMost(x, y) && AtMost(y, z) { AtMostTransitive(x, y, z); }
  }

  function ProposalIds(proposals: seq<Proposal>): (ids: seq<ProposalId>)
    ensures |ids| == |proposals| && forall i | 0 <= i < |ids| :: ids[i] == proposals[i].id
  {
    seq(|proposals|, i requires 0 <= i < |proposals| => proposals[i].id)
  }

  /** A finished set: its sequence, a comparison with its sorted copy, distinct ids, each proposal and its snapshot. */
  method ValidateSet(s: ProposalSet, texts: Texts) returns (r: Curated<ProposalSet>)
    ensures r.Ok? <==>
      && s.checkpoint.body.fields.sequence >= 1
      && InOrder(s.proposals, ByProposal(texts))
      && Distinct(ProposalIds(s.proposals))
      && (forall p | p in s.proposals :: ValidateProposal(p).Ok? && p.content.source == s.source)
    ensures r.Ok? ==> r.value == s
  {
    if s.checkpoint.body.fields.sequence < 1 {
      return Err(InvalidSequence);
    }
    ByProposalIsPreorder(texts);
    var sorted := StableSort(s.proposals, ByProposal(texts));
    if sorted != s.proposals {
      return Err(NotSorted);
    }
    SizeMeansDistinct(ProposalIds(s.proposals));
    if |SetOf(ProposalIds(s.proposals))| != |s.proposals| {
      return Err(DuplicateProposal);
    }
    var _ :- ValidateEach(s);
    r := Ok(s);
  }

  /** Each proposal by itself, and its binding to the snapshot. */
  method ValidateEach(s: ProposalSet) returns (r: Curated<ProposalSet>)
    ensures r.Ok? <==> forall p | p in s.proposals :: ValidateProposal(p).Ok? && p.content.source == s.source
  {
    for i := 0 to |s.proposals|
      invariant forall k | 0 <= k < i :: ValidateProposal(s.proposals[k]).Ok? && s.proposals[k].content.source == s.source
    {
      assert s.proposals[i] in s.proposals;
      var p :- ValidateProposal(s.proposals[i]);
      if p.content.source != s.source {
        return Err(SnapshotBindingMismatch);
      }
    }
    r := Ok(s);
  }

  // ---------- The compiler ----------

  function KeySet(signals: seq<E.Signal>): set<E.Key> {
    SetOf(E.KeyList(signals))
  }

  predicate SoundSignal(signal: E.Signal) {
    signal.key.domain in E.DOMAINS && ValidateCounters(CountersOf(signal)).Ok?
  }

  /** The snapshot's own checks: sound signals with pairwise distinct identities. */
  ghost predicate SoundSnapshot(snapshot: E.Snapshot) {
    && (forall signal | signal in snapshot.signals :: SoundSignal(signal))
    && Distinct(E.KeyList(snapshot.signals))
  }

  /** Grow the set of seen identities, refusing a repetition. */
  method ValidateSnapshot(snapshot: E.Snapshot) returns (r: Curated<set<E.Key>>)
    ensures r.Ok? <==> SoundSnapshot(snapshot)
    ensures r.Ok? ==> r.value == KeySet(snapshot.signals)
  {
    var identities: set<E.Key> := {};
    var keys := E.KeyList(snapshot.signals);
    for i := 0 to |snapshot.signals|
      invariant forall j | 0 <= j < i :: SoundSignal(snapshot.signals[j])
      invariant forall j, k | 0 <= j < k < i :: keys[j] != keys[k]
      invariant forall key :: key in identities <==> key in keys[..i]
    {
      var signal := snapshot.signals[i];
      assert signal in snapshot.signals;
      if signal.key.domain !in E.DOMAINS {
        return Err(InvalidDomain);
      }
      var _ :- ValidateCounters(CountersOf(signal));
      if signal.key in identities {
        assert keys[i] in keys[..i];
        return Err(DuplicateSignal);
      }
      identities := identities + {signal.key};
      assert keys[..i + 1] == keys[..i] + [keys[i]];
    }
    assert keys[..|keys|] == keys;
    r := Ok(identities);
  }

  /** The active version of an item, as one connection to the store sees it. */
  function ActiveIdentity(store: Store, itemId: Name, texts: Texts): Curated<Active> {
    if !LedgerIntact(store) then Err(StoreRefused(LedgerIntegrityFailed))
    else
      match ActiveRow(store, itemId)
      case Err(reason) => Err(StoreRefused(reason))
      case Ok(None) => Err(TargetNotActive)
      case Ok(Some(row)) =>
        if !ActiveLevel(row.level) then Err(LevelNotActive)
        else if row.candidate.knowledge.domain !in E.DOMAINS then Err(InvalidDomain)
        else Ok(Active(row.itemId, texts.knowledge(row.knowledgeSha), row.candidateSha, row.level,
                       row.candidate.knowledge.domain))
  }

  /** The signal speaks of exactly the version that is active in `store`. */
  predicate Targets(store: Store, signal: E.Signal, texts: Texts) {
    var active := ActiveIdentity(store, signal.key.itemId, texts);
    && active.Ok?
    && active.value.sha == signal.key.sha
    && active.value.domain == signal.key.domain
  }

  /** The signals of a snapshot in the compiler's order. */
  ghost predicate Arranged(order: seq<E.Signal>, signals: seq<E.Signal>) {
    && Ascending(E.KeyList(order), E.ByKey())
    && (forall signal :: signal in order <==> signal in signals)
    && |order| == |signals|
  }

  lemma ArrangementIsUnique(a: seq<E.Signal>, b: seq<E.Signal>, signals: seq<E.Signal>)
    requires Arranged(a, signals) && Arranged(b, signals)
    ensures a == b
  {
    var keys := KeySet(a);
    E.ByKeyIsTotal();
    forall k ensures k in E.KeyList(a) <==> k in E.KeyList(b) {
      if k in E.KeyList(a) {
        var i :| 0 <= i < |a| && E.KeyList(a)[i] == k;
        assert a[i] in b;
        var j :| 0 <= j < |b| && b[j] == a[i];
        assert E.KeyList(b)[j] == k;
      }
      if k in E.KeyList(b) {
        var i :| 0 <= i < |b| && E.KeyList(b)[i] == k;
        assert b[i] in a;
        var j :| 0 <= j < |a| && a[j] == b[i];
        assert E.KeyList(a)[j] == k;
      }
    }
    SortedListingIsUnique(E.KeyList(a), E.KeyList(b), keys, E.ByKey());
    forall i | 0 <= i < |a| ensures a[i] == b[i] {
      assert a[i] in b;
      var j :| 0 <= j < |b| && b[j] == a[i];
      assert E.KeyList(b)[j] == E.KeyList(b)[i];
    }
  }

  method SortSignals(signals: seq<E.Signal>, keys: set<E.Key>) returns (order: seq<E.Signal>)
    requires Distinct(E.KeyList(signals)) && keys == KeySet(signals)
    ensures Arranged(order, signals)
  {
    E.ByKeyIsTotal();
    var sorted := Sort(keys, E.ByKey());
    order := [];
    for i := 0 to |sorted|
      invariant |order| == i
      invariant forall k | 0 <= k < i :: order[k] in signals && order[k].key == sorted[k]
    {
      assert sorted[i] in sorted;
      var at :| 0 <= at < |signals| && signals[at].key == sorted[i];
      order := order + [signals[at]];
    }
    SortedIsArranged(order, signals, sorted);
  }

  lemma SortedIsArranged(order: seq<E.Signal>, signals: seq<E.Signal>, sorted: seq<E.Key>)
    requires Distinct(E.KeyList(signals)) && SortedSetOf(sorted, KeySet(signals), E.ByKey())
    requires |order| == |sorted| && forall k | 0 <= k < |order| :: order[k] in signals && order[k].key == sorted[k]
    ensures Arranged(order, signals)
  {
    assert E.KeyList(order) == sorted;
    forall signal | signal in signals ensures signal in order {
      var i :| 0 <= i < |signals| && signals[i] == signal;
      assert E.KeyList(signals)[i] in sorted;
      var k :| 0 <= k < |sorted| && sorted[k] == signal.key;
      var j :| 0 <= j < |signals| && signals[j] == order[k];
      assert E.KeyList(signals)[j] == E.KeyList(signals)[i];
    }
    SizeMeansDistinct(E.KeyList(signals));
    SizeMeansDistinct(sorted);
    assert SetOf(sorted) == KeySet(signals);
  }

  /** What the compiler must emit for one signal. */
  ghost predicate ProposalFor(p: Proposal, source: SnapshotSha, store: Store, signal: E.Signal, texts: Texts) {
    && Targets(store, signal, texts)
    && p.id == ProposalId(p.content)
    && p.content.source == source
    && p.content.signal == SignalSha(Published(signal))
    && p.content.active == ActiveIdentity(store, signal.key.itemId, texts).value
    && p.content.advice == signal.advice && p.content.action == ActionFor(signal.advice)
    && p.content.evidence == CountersOf(signal)
    && p.content.reasons == Reasons(signal.advice, p.content.action, p.content.active.level, p.content.human, p.content.domainReview)
    && (p.content.human, p.content.domainReview)
       == ReviewRequirements(signal.key.domain, p.content.active.level, ActionFor(signal.advice))
  }

  lemma CreateNeverFails(source: SnapshotSha, store: Store, signal: E.Signal, texts: Texts)
    requires SoundSignal(signal) && Targets(store, signal, texts)
    ensures var active := ActiveIdentity(store, signal.key.itemId, texts).value;
            var p := CreateProposal(source, active, signal);
            && p.Ok? && ProposalFor(p.value, source, store, signal, texts) && ValidateProposal(p.value).Ok?
  {
  }

  predicate SameCheckpoint(a: Record, b: Record) {
    && a.body.fields.sequence == b.body.fields.sequence
    && a.digest == b.digest
    && a.body.fields.state.stateSha == b.body.fields.state.stateSha
  }
}
