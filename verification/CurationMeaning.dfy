/** What a compiled proposal says about the active version and about the evidence, in the analyzer's counts. */
module CurationMeaning {
  import opened Names
  import opened Wrappers
  import opened LearningStore
  import opened Checkpoint
  import opened Curation
  import opened CurationCompiler
  import E = Effectiveness
  import EM = EffectivenessMeaning
  import EL = EffectivenessLaws

  // ---------- The target ----------

  /** The row that is active for the signal's item is the version, in the domain, that the signal names. */
  predicate NamedBy(row: Version, signal: E.Signal, texts: Texts) {
    && texts.knowledge(row.knowledgeSha) == signal.key.sha
    && row.candidate.knowledge.domain == signal.key.domain && signal.key.domain in E.DOMAINS
  }

  lemma ActiveRowHasActiveLevel(store: Store, itemId: Name)
    requires ValidStore(store) && ActiveRow(store, itemId).Ok? && ActiveRow(store, itemId).value.Some?
    ensures var row := ActiveRow(store, itemId).value.value;
            row.itemId == itemId && (row.level.ApprovedLevel? || row.level.EnterpriseLevel?)
  {
    ActiveRowNeverFails(store, itemId);
    var row := ActiveRow(store, itemId).value.value;
    var k :| 0 <= k < |store.versions| && store.versions[k] == row;
    assert Activated(store.ledger, store.versions[k]);
  }

  /** On a valid store a signal hits its target exactly when the active row is what it names. */
  lemma TargetsMeaning(store: Store, signal: E.Signal, texts: Texts)
    requires ValidStore(store)
    ensures var active := ActiveRow(store, signal.key.itemId);
            && active.Ok?
            && (Targets(store, signal, texts) <==> active.value.Some? && NamedBy(active.value.value, signal, texts))
  {
    ActiveRowNeverFails(store, signal.key.itemId);
    if ActiveRow(store, signal.key.itemId).value.Some? {
      ActiveRowHasActiveLevel(store, signal.key.itemId);
    }
  }

  // ---------- The proposal ----------

  /** The action by its thresholds on the isolated counts. */
  predicate ActsOn(action: CurationAction, signal: E.Signal) {
    var sensitive := signal.key.domain in {"network", "security"};
    var failed, unverified, waiting := signal.isolatedFailed, signal.isolatedUnverified, signal.isolatedWaiting;
    && (action.DomainReviseOrArchiveReview? <==> sensitive && (failed >= 1 || unverified >= 1 || waiting >= 2))
    && (action.ReviseOrArchiveReview? <==> !sensitive && (failed + unverified >= 2 || waiting >= 3))
    && (action.KeepActiveReview? <==> failed == 0 && unverified == 0 && waiting == 0 && signal.isolatedSuccess >= 3)
  }

  /** A human looks at every action but waiting and at all enterprise knowledge, and a domain expert if that is sensitive. */
  ghost predicate ReviewedBy(content: Content) {
    && (content.human <==> !content.action.ObserveMore? || content.active.level.EnterpriseLevel?)
    && (content.domainReview <==> content.human && content.active.domain in {"network", "security"})
    && forall reason :: reason in content.reasons <==>
         || reason == SignalReason(content.advice) || reason == ActionReason(content.action)
         || reason == LevelReason(content.active.level)
         || (reason == HumanReviewRequired && content.human) || (reason == DomainReviewRequired && content.domainReview)
  }

  predicate Identifies(active: Active, row: Version, texts: Texts) {
    && active.itemId == row.itemId && active.sha == texts.knowledge(row.knowledgeSha)
    && active.candidateSha == row.candidateSha && active.level == row.level
    && active.domain == row.candidate.knowledge.domain
  }

  predicate Evidences(c: Counters, s: E.Signal) {
    && c.tasks == s.tasks && c.receipts == s.receipts && c.isolated == s.isolated && c.confounded == s.confounded
    && c.success == s.success && c.failed == s.failed && c.waiting == s.waiting && c.pending == s.pending
    && c.unverified == s.unverified && c.isolatedSuccess == s.isolatedSuccess && c.isolatedFailed == s.isolatedFailed
    && c.isolatedWaiting == s.isolatedWaiting && c.isolatedUnverified == s.isolatedUnverified
  }

  ghost predicate Proposes(p: Proposal, row: Version, signal: E.Signal, texts: Texts) {
    && NamedBy(row, signal, texts) && Identifies(p.content.active, row, texts)
    && Evidences(p.content.evidence, signal)
    && p.content.advice == signal.advice && ActsOn(p.content.action, signal)
    && ReviewedBy(p.content)
  }

  /** What a proposal must be to pass validation, wherever it comes from. */
  ghost predicate Consistent(p: Proposal) {
    var c := p.content;
    && (c.active.level.ApprovedLevel? || c.active.level.EnterpriseLevel?) && c.active.domain in E.DOMAINS
    && (c.action.ObserveMore? <==> c.advice.Insufficient?) && (c.action.KeepActiveReview? <==> c.advice.Support?)
    && (c.action.ReviseOrArchiveReview? <==> c.advice.Review?)
    && (c.human <==> !c.action.ObserveMore? || c.active.level.EnterpriseLevel?)
    && (c.domainReview <==> c.action.DomainReviseOrArchiveReview? || (c.human && c.active.domain in {"network", "security"}))
    && Balances(c.evidence)
    && 1 <= |c.reasons| <= 8 && (forall i, j | 0 <= i < j < |c.reasons| :: c.reasons[i] != c.reasons[j])
    && p.id == ProposalId(c)
  }

  /** No negative count; tasks split by isolation and by outcome; the isolated outcomes fit into both. */
  predicate Balances(c: Counters) {
    && 0 <= c.tasks && 0 <= c.receipts && 0 <= c.isolated && 0 <= c.confounded && 0 <= c.pending
    && c.isolated + c.confounded == c.tasks
    && c.success + c.failed + c.waiting + c.pending + c.unverified == c.tasks
    && 0 <= c.isolatedSuccess <= c.success && 0 <= c.isolatedFailed <= c.failed
    && 0 <= c.isolatedWaiting <= c.waiting && 0 <= c.isolatedUnverified <= c.unverified
    && c.isolatedSuccess + c.isolatedFailed + c.isolatedWaiting + c.isolatedUnverified <= c.isolated
  }

  lemma CountersMeaning(c: Counters)
    ensures ValidateCounters(c).Ok? <==> Balances(c)
    ensures ValidateCounters(c).Ok? ==> ValidateCounters(c).value == c
  {
  }

  lemma ValidProposalMeaning(p: Proposal)
    ensures ValidateProposal(p).Ok? <==> Consistent(p)
    ensures ValidateProposal(p).Ok? ==> ValidateProposal(p).value == p
  {
    CountersMeaning(p.content.evidence);
  }

  lemma ActionMeaning(signal: E.Signal, receipts: set<E.Receipt>, tasks: map<Name, E.TaskView>)
    requires EM.Means(signal, receipts, tasks)
    ensures ActsOn(ActionFor(signal.advice), signal)
  {
  }

  lemma ReviewMeaning(content: Content, signal: E.Signal)
    requires content.active.domain == signal.key.domain
    requires content.action == ActionFor(content.advice) && ActsOn(content.action, signal)
    requires (content.human, content.domainReview)
             == ReviewRequirements(content.active.domain, content.active.level, content.action)
    requires content.reasons
             == Reasons(content.advice, content.action, content.active.level, content.human, content.domainReview)
    ensures ReviewedBy(content)
  {
    ReasonsMeaning(content.advice, content.action, content.active.level, content.human, content.domainReview);
  }

  lemma ReasonsMeaning(advice: E.Advice, action: CurationAction, level: Level, human: bool, domainReview: bool)
    ensures forall reason :: reason in Reasons(advice, action, level, human, domainReview) <==>
              || reason == SignalReason(advice) || reason == ActionReason(action) || reason == LevelReason(level)
              || (reason == HumanReviewRequired && human) || (reason == DomainReviewRequired && domainReview)
  {
  }

  lemma ProposalMeaning(p: Proposal, source: SnapshotSha, store: Store, signal: E.Signal, texts: Texts,
                        receipts: set<E.Receipt>, tasks: map<Name, E.TaskView>)
    requires ValidStore(store) && ProposalFor(p, source, store, signal, texts) && EM.Means(signal, receipts, tasks)
    ensures var active := ActiveRow(store, signal.key.itemId);
            active.Ok? && active.value.Some? && Proposes(p, active.value.value, signal, texts)
  {
    TargetsMeaning(store, signal, texts);
    ActionMeaning(signal, receipts, tasks);
    IdentityMeaning(store, signal, texts);
    ReviewMeaning(p.content, signal);
  }

  lemma IdentityMeaning(store: Store, signal: E.Signal, texts: Texts)
    requires Targets(store, signal, texts)
    ensures var active := ActiveRow(store, signal.key.itemId);
            && active.Ok? && active.value.Some?
            && Identifies(ActiveIdentity(store, signal.key.itemId, texts).value, active.value.value, texts)
  {
  }

  /**
    From the receipts to the proposals: each proposal of a set compiled from the receipts and tasks
    identifies the row that is active, carries the counts, and asks for what their thresholds ask for.
  */
  lemma CompilationMeaning(s: ProposalSet, rows: seq<E.Activity>, tasks: map<Name, E.TaskView>, snapshot: E.Snapshot,
                           order: seq<E.Signal>, views: nat -> System, cfg: Config, keyring: Keyring, texts: Texts)
    requires EL.Accepted(rows, tasks) && E.SnapshotFor(snapshot, E.ReceiptsIn(rows), tasks)
    requires CompiledSet(s, snapshot, order, views, cfg, keyring, texts) && ValidStore(views(0).store)
    ensures forall i | 0 <= i < |order| ::
              var active := ActiveRow(views(0).store, order[i].key.itemId);
              active.Ok? && active.value.Some? && Proposes(s.proposals[i], active.value.value, order[i], texts)
    ensures forall signal | signal in snapshot.signals :: signal in order
  {
    EM.SnapshotMeaning(snapshot, E.ReceiptsIn(rows), tasks);
    forall i | 0 <= i < |order|
      ensures var active := ActiveRow(views(0).store, order[i].key.itemId);
              active.Ok? && active.value.Some? && Proposes(s.proposals[i], active.value.value, order[i], texts)
    {
      assert order[i] in order;
      ProposalMeaning(s.proposals[i], s.source, views(0).store, order[i], texts, E.ReceiptsIn(rows), tasks);
    }
  }
}
