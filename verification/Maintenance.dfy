/** One recommendation-only maintenance tick: effectiveness, then curation, then a bounded receipt. */
module Maintenance {
  import opened Names
  import opened Wrappers
  import opened Steadiness
  import opened LearningStore
  import opened Checkpoint
  import opened Curation
  import opened CurationCompiler
  import opened CurationLaws
  import E = Effectiveness
  import EA = EffectivenessAnalyzer
  import EL = EffectivenessLaws

  datatype Tuning = Tuning(enabled: bool, maxSignals: nat) {
    predicate Valid() {
      1 <= maxSignals <= 128
    }
  }

  datatype Kind = ObserveMoreKind | KeepActiveKind | RevisionOrRetirementKind | DomainRevisionOrRetirementKind

  datatype Recommendation = Recommendation(
    proposal: ProposalId, active: Active, advice: E.Advice, action: CurationAction, kind: Kind, human: bool,
    domainReview: bool, reasons: seq<Reason>)

  datatype Status = Disabled | NoSignals | RecommendationsReady | SignalLimitExceeded

  datatype Receipt = Receipt(
    enabled: bool, status: Status, scanned: int, emitted: int, snapshot: Option<SnapshotSha>,
    proposals: Option<ProposalSet>, checkpoint: Option<Record>, recommendations: seq<Recommendation>)

  datatype MaintenanceError =
    | EffectivenessBlocked(effectiveness: E.EffectivenessError) | CurationBlocked(curation: CurationError)
    | VerificationFailed(checkpoint: CheckpointError) | CheckpointMoved
    | ProposalInvalid(proposal: CurationError) | RecommendationActionInvalid | RecommendationReasonsRequired
    | ReceiptCountInvalid | RecommendationCountMismatch | DisabledReceiptInvalid | EnabledReceiptInvalid
    | SnapshotShaInvalid | CheckpointInvalid | LimitReceiptInvalid | ProposalSetInvalid | NoSignalReceiptInvalid
    | ReadyReceiptInvalid

  type Maintained<T> = Result<T, MaintenanceError>

  function KindFor(action: CurationAction): Kind {
    match action
    case ObserveMore => ObserveMoreKind
    case KeepActiveReview => KeepActiveKind
    case ReviseOrArchiveReview => RevisionOrRetirementKind
    case DomainReviseOrArchiveReview => DomainRevisionOrRetirementKind
  }

  function ValidateRecommendation(r: Recommendation): Maintained<Recommendation> {
    if r.kind != KindFor(r.action) then Err(RecommendationActionInvalid)
    else if r.reasons == [] then Err(RecommendationReasonsRequired)
    else Ok(r)
  }

  function FromProposal(p: Proposal): Maintained<Recommendation> {
    match ValidateProposal(p)
    case Err(e) => Err(ProposalInvalid(e))
    case Ok(_) =>
      var c := p.content;
      ValidateRecommendation(
        Recommendation(p.id, c.active, c.advice, c.action, KindFor(c.action), c.human, c.domainReview, c.reasons))
  }

  method ValidateReceipt(r: Receipt) returns (v: Maintained<Receipt>)
    ensures v.Ok? <==> SoundReceipt(r)
    ensures v.Ok? ==> v.value == r
    ensures v.Err? ==> !IsInputError(v.error)
  {
    if r.scanned < 0 || r.emitted < 0 {
      return Err(ReceiptCountInvalid);
    }
    if r.emitted != |r.recommendations| {
      return Err(RecommendationCountMismatch);
    }
    for i := 0 to |r.recommendations|
      invariant forall k | 0 <= k < i :: ValidateRecommendation(r.recommendations[k]).Ok?
    {
      var _ :- ValidateRecommendation(r.recommendations[i]);
    }
    if r.status.Disabled? {
      return if r.enabled || r.scanned != 0 || r.emitted != 0 || r.snapshot.Some? || r.proposals.Some? || r.checkpoint.Some?
        then Err(DisabledReceiptInvalid) else Ok(r);
    }
    if !r.enabled {
      return Err(EnabledReceiptInvalid);
    }
    if r.snapshot.None? {
      return Err(SnapshotShaInvalid);
    }
    if r.checkpoint.None? || r.checkpoint.value.body.fields.sequence < 1 {
      return Err(CheckpointInvalid);
    }
    if r.status.SignalLimitExceeded? {
      return if r.proposals.Some? || r.recommendations != [] then Err(LimitReceiptInvalid) else Ok(r);
    }
    if r.proposals.None? {
      return Err(ProposalSetInvalid);
    }
    if r.status.NoSignals? && (r.scanned != 0 || r.recommendations != []) {
      return Err(NoSignalReceiptInvalid);
    }
    if r.status.RecommendationsReady? && (r.scanned < 1 || r.emitted != r.scanned) {
      return Err(ReadyReceiptInvalid);
    }
    v := Ok(r);
  }

  /** The refusals that a tick may end in; every other error would be a defect of the tick itself. */
  predicate IsInputError(e: MaintenanceError) {
    e.EffectivenessBlocked? || e.CurationBlocked? || e.VerificationFailed? || e.CheckpointMoved?
  }

  predicate SoundReceipt(r: Receipt) {
    && r.scanned >= 0 && r.emitted == |r.recommendations|
    && (forall x | x in r.recommendations :: ValidateRecommendation(x).Ok?)
    && (r.enabled <==> !r.status.Disabled?)
    && (r.enabled <==> r.snapshot.Some?) && (r.enabled <==> r.checkpoint.Some?)
    && (r.enabled ==> r.checkpoint.value.body.fields.sequence >= 1)
    && (r.proposals.Some? <==> r.status.NoSignals? || r.status.RecommendationsReady?)
    && (!r.status.RecommendationsReady? ==> r.emitted == 0)
    && (r.status.Disabled? || r.status.NoSignals? ==> r.scanned == 0)
    && (r.status.RecommendationsReady? ==> r.emitted == r.scanned >= 1)
  }

  method Recommend(proposals: seq<Proposal>) returns (r: Maintained<seq<Recommendation>>)
    ensures r.Ok? <==> forall p | p in proposals :: ValidateProposal(p).Ok?
    ensures r.Ok? ==> RecommendationsFor(r.value, proposals)
  {
    var recommendations: seq<Recommendation> := [];
    for i := 0 to |proposals|
      invariant RecommendationsFor(recommendations, proposals[..i])
      invariant forall k | 0 <= k < i :: ValidateProposal(proposals[k]).Ok?
    {
      assert proposals[i] in proposals;
      var recommendation :- FromProposal(proposals[i]);
      recommendations := recommendations + [recommendation];
    }
    assert proposals[..|proposals|] == proposals;
    r := Ok(recommendations);
  }

  /** The recommendation repeats the proposal, and its kind is that of the proposed action. */
  predicate Recommends(r: Recommendation, p: Proposal) {
    && r.proposal == p.id && r.active == p.content.active && r.advice == p.content.advice && r.action == p.content.action
    && r.human == p.content.human && r.domainReview == p.content.domainReview && r.reasons == p.content.reasons
    && (r.kind.ObserveMoreKind? <==> p.content.action.ObserveMore?)
    && (r.kind.KeepActiveKind? <==> p.content.action.KeepActiveReview?)
    && (r.kind.RevisionOrRetirementKind? <==> p.content.action.ReviseOrArchiveReview?)
    && (r.kind.DomainRevisionOrRetirementKind? <==> p.content.action.DomainReviseOrArchiveReview?)
  }

  predicate RecommendationsFor(recommendations: seq<Recommendation>, proposals: seq<Proposal>) {
    && |recommendations| == |proposals|
    && (forall i | 0 <= i < |proposals| :: Recommends(recommendations[i], proposals[i]))
    && (forall x | x in recommendations :: ValidateRecommendation(x).Ok?)
  }

  function Later(views: nat -> System, skip: nat): nat -> System {
    (k: nat) => views(k + skip)
  }

  lemma LaterIsSteady(views: nat -> System, cfg: Config, skip: nat)
    requires Steady(views, cfg)
    ensures Steady(Later(views, skip), cfg)
  {
    ShiftIsSteady(views, Later(views, skip), Standing(cfg), StorePart(), skip);
  }

  /** When a tick over few signals produces a receipt: all targets hit and no checkpoint between its looks. */
  ghost predicate SmallTicks(snapshot: E.Snapshot, before: Record, views: nat -> System, cfg: Config, keyring: Keyring,
                             texts: Texts)
  {
    var last := |snapshot.signals| + 4;
    && TargetsHit(snapshot, Later(views, 2), cfg, keyring, texts)
    && VerifyStore(views(last), cfg, keyring).Ok?
    && SameCheckpoint(before, VerifyStore(views(last), cfg, keyring).value)
  }

  /** When a tick over an accepted snapshot produces a receipt. */
  ghost predicate Ticks(tuning: Tuning, snapshot: E.Snapshot, before: Record, views: nat -> System, cfg: Config,
                        keyring: Keyring, texts: Texts)
  {
    && VerifyStore(views(1), cfg, keyring).Ok?
    && if |snapshot.signals| > tuning.maxSignals
       then VerifyStore(views(1), cfg, keyring).value.digest == before.digest
       else SmallTicks(snapshot, before, views, cfg, keyring, texts)
  }

  /** The receipt of a tick that stayed within its limit: one recommendation for each signal. */
  ghost predicate SmallReceipt(r: Receipt, snapshot: E.Snapshot, before: Record, compiled: ProposalSet) {
    && r.enabled && r.scanned == r.emitted == |snapshot.signals|
    && r.snapshot == Some(ShaOfSnapshot(snapshot)) && r.checkpoint == Some(before)
    && (r.status == if snapshot.signals == [] then NoSignals else RecommendationsReady)
    && r.proposals == Some(compiled) && RecommendationsFor(r.recommendations, compiled.proposals)
  }

  /** The same, with the set that was compiled from the looks in between. */
  ghost predicate CompiledReceipt(r: Receipt, snapshot: E.Snapshot, before: Record, views: nat -> System, cfg: Config,
                                  keyring: Keyring, texts: Texts)
  {
    exists compiled, order ::
      && SmallReceipt(r, snapshot, before, compiled)
      && CompiledSet(compiled, snapshot, order, Later(views, 2), cfg, keyring, texts)
  }

  /** What the receipt of an enabled tick says. */
  ghost predicate ReceiptFor(r: Receipt, tuning: Tuning, snapshot: E.Snapshot, before: Record, views: nat -> System,
                             cfg: Config, keyring: Keyring, texts: Texts)
  {
    if |snapshot.signals| <= tuning.maxSignals then CompiledReceipt(r, snapshot, before, views, cfg, keyring, texts)
    else r == Receipt(true, SignalLimitExceeded, |snapshot.signals|, 0, Some(ShaOfSnapshot(snapshot)), None, Some(before), [])
  }

  /** One tick. `views(k)` is the system at the k-th look. */
  method RunOnce(tuning: Tuning, rows: seq<E.Activity>, tasks: map<Name, E.TaskView>, views: nat -> System, cfg: Config,
                 keyring: Keyring, texts: Texts)
    returns (r: Maintained<Receipt>, ghost snapshot: E.Snapshot)
    requires tuning.Valid() && Steady(views, cfg)
    ensures !tuning.enabled ==> r == Ok(Receipt(false, Disabled, 0, 0, None, None, None, []))
    ensures tuning.enabled && r.Ok? ==> VerifyStore(views(0), cfg, keyring).Ok? && EL.Accepted(rows, tasks)
    ensures tuning.enabled && VerifyStore(views(0), cfg, keyring).Ok? && EL.Accepted(rows, tasks) ==>
              var before := VerifyStore(views(0), cfg, keyring).value;
              && E.SnapshotFor(snapshot, E.ReceiptsIn(rows), tasks)
              && (r.Ok? <==> Ticks(tuning, snapshot, before, views, cfg, keyring, texts))
              && (r.Ok? ==> ReceiptFor(r.value, tuning, snapshot, before, views, cfg, keyring, texts))
    ensures r.Ok? ==> SoundReceipt(r.value)
    ensures r.Err? ==> IsInputError(r.error)
  {
    snapshot := E.Snapshot([], 0, 0);
    if !tuning.enabled {
      r := ValidateReceipt(Receipt(false, Disabled, 0, 0, None, None, None, []));
      return;
    }
    var before := VerifyStore(views(0), cfg, keyring);
    if before.Err? {
      return Err(VerificationFailed(before.error)), snapshot;
    }
    VerifiedSequence(views(0), cfg, keyring);
    var taken := EA.TakeSnapshot(rows, tasks);
    if taken.Err? {
      return Err(EffectivenessBlocked(taken.error)), snapshot;
    }
    snapshot := taken.value;
    r := TickOver(tuning, taken.value, before.value, rows, tasks, views, cfg, keyring, texts);
  }

  /** A tick after its first verification and its snapshot. */
  method TickOver(tuning: Tuning, snapshot: E.Snapshot, before: Record, rows: seq<E.Activity>,
                  tasks: map<Name, E.TaskView>, views: nat -> System, cfg: Config, keyring: Keyring, texts: Texts)
    returns (r: Maintained<Receipt>)
    requires Steady(views, cfg) && before.body.fields.sequence >= 1
    requires EL.Accepted(rows, tasks) && E.SnapshotFor(snapshot, E.ReceiptsIn(rows), tasks)
    ensures r.Ok? <==> Ticks(tuning, snapshot, before, views, cfg, keyring, texts)
    ensures r.Ok? ==> ReceiptFor(r.value, tuning, snapshot, before, views, cfg, keyring, texts) && SoundReceipt(r.value)
    ensures r.Err? ==> IsInputError(r.error)
  {
    var second := VerifyStore(views(1), cfg, keyring);
    if second.Err? {
      return Err(VerificationFailed(second.error));
    }
    if |snapshot.signals| > tuning.maxSignals {
      if second.value.digest != before.digest {
        return Err(CheckpointMoved);
      }
      r := ValidateReceipt(Receipt(true, SignalLimitExceeded, |snapshot.signals|, 0, Some(ShaOfSnapshot(snapshot)), None,
                                   Some(before), []));
      return;
    }
    r := TickOverSignals(snapshot, before, rows, tasks, views, cfg, keyring, texts);
  }

  /** The rest of a tick once the snapshot is small enough: compile, verify, recommend. */
  method TickOverSignals(snapshot: E.Snapshot, before: Record, rows: seq<E.Activity>, tasks: map<Name, E.TaskView>,
                         views: nat -> System, cfg: Config, keyring: Keyring, texts: Texts)
    returns (r: Maintained<Receipt>)
    requires Steady(views, cfg)
    requires EL.Accepted(rows, tasks) && E.SnapshotFor(snapshot, E.ReceiptsIn(rows), tasks)
    requires before.body.fields.sequence >= 1
    ensures r.Ok? <==> SmallTicks(snapshot, before, views, cfg, keyring, texts)
    ensures r.Ok? ==> CompiledReceipt(r.value, snapshot, before, views, cfg, keyring, texts) && SoundReceipt(r.value)
    ensures r.Err? ==> IsInputError(r.error)
  {
    LaterIsSteady(views, cfg, 2);
    ConsumersNeverRefuse(rows, tasks, snapshot);
    var compiled := Compile(snapshot, Later(views, 2), cfg, keyring, texts);
    if compiled.Err? {
      return Err(CurationBlocked(compiled.error));
    }
    var after := VerifyStore(views(|snapshot.signals| + 4), cfg, keyring);
    if after.Err? {
      return Err(VerificationFailed(after.error));
    }
    if !SameCheckpoint(before, after.value) {
      return Err(CheckpointMoved);
    }
    ghost var order :| CompiledSet(compiled.value, snapshot, order, Later(views, 2), cfg, keyring, texts);
    CompiledProposalsAreValid(compiled.value, snapshot, order, Later(views, 2), cfg, keyring, texts);
    r := ReadyReceipt(snapshot, before, compiled.value);
  }

  /** The receipt of a compiled set. */
  method ReadyReceipt(snapshot: E.Snapshot, before: Record, compiled: ProposalSet) returns (r: Maintained<Receipt>)
    requires before.body.fields.sequence >= 1 && |compiled.proposals| == |snapshot.signals|
    requires forall p | p in compiled.proposals :: ValidateProposal(p).Ok?
    ensures r.Ok? && SmallReceipt(r.value, snapshot, before, compiled) && SoundReceipt(r.value)
  {
    var recommendations := Recommend(compiled.proposals);
    match recommendations
    case Err(e) => r := Err(e);
    case Ok(list) =>
      var status := if list == [] then NoSignals else RecommendationsReady;
      r := ValidateReceipt(Receipt(true, status, |snapshot.signals|, |list|, Some(ShaOfSnapshot(snapshot)), Some(compiled),
                                   Some(before), list));
  }

  lemma CompiledProposalsAreValid(s: ProposalSet, snapshot: E.Snapshot, order: seq<E.Signal>, views: nat -> System,
                                  cfg: Config, keyring: Keyring, texts: Texts)
    requires SoundSnapshot(snapshot)
    requires CompiledSet(s, snapshot, order, views, cfg, keyring, texts)
    ensures forall p | p in s.proposals :: ValidateProposal(p).Ok?
  {
    forall i | 0 <= i < |order| ensures ValidateProposal(s.proposals[i]).Ok? {
      assert order[i] in order;
      ProposalIsValid(s.proposals[i], s.source, views(0).store, order[i], texts);
    }
  }
}
