/**
  Claim-once receipts around the isolated workers, for any number of coordinator processes
  interleaved step by step and killed anywhere. The reflection and the curation-revision
  coordinators follow the same protocol: claim, run the worker, stage, complete.
*/
module ReceiptClaims {
  import opened Names
  import opened Wrappers
  import opened LearningStore
  import opened Checkpoint
  import opened CheckpointLaws
  import opened CheckpointRuns
  import opened Expectations

  /** What a receipt file name is a digest of. */
  datatype Key =
    | ReflectionKey(admissionId: Name, domain: Name)
    | RevisionKey(approvalId: Name, proposalId: Name, base: KnowledgeSha, expected: Expectation)

  datatype Status = ClaimedStatus | CompletedStatus

  datatype Result = NoValue | RejectedResult | StagedResult

  /** The record digest covers every other field, so equal digests are equal receipts. */
  datatype Receipt = Receipt(
    key: Key, binding: Name, status: Status, result: Option<Result>, candidateSha: Option<CandidateSha>,
    reasons: seq<Name>, createdAt: Name, updatedAt: Name)

  /** `Torn` is a receipt file created exclusively but not yet written. */
  datatype File = Torn | Stored(receipt: Receipt)

  /** Where a coordinator process stands. */
  datatype Pc =
    | Ready(key: Key)
    | Created(key: Key)
    | Claimed(claim: Receipt)
    | Proposed(claim: Receipt, candidate: Candidate)
    | Settled(claim: Receipt, final: Receipt)
    | Completing(claim: Receipt, final: Receipt)
    | Stopped
  {
    /** The process won the exclusive creation of its key's file and has not finished. */
    predicate Holds(k: Key) {
      match this
      case Created(key) => key == k
      case Claimed(claim) => claim.key == k
      case Proposed(claim, _) => claim.key == k
      case Settled(claim, _) => claim.key == k
      case Completing(claim, _) => claim.key == k
      case _ => false
    }
  }

  /** Externally visible effects, in order. */
  datatype Effect = WorkerRan(key: Key) | StageCalled(key: Key)

  datatype World = World(bound: Bound, files: map<Key, File>, processes: map<Name, Pc>, log: seq<Effect>)

  datatype Answer = Nothing | Refused(reason: Name) | Proposal(candidate: Candidate)

  datatype Move =
    | Launch(pid: Name, key: Key)
    | CreateFile(pid: Name)
    | WriteClaim(pid: Name, binding: Name, now: Name)
    | RunWorker(pid: Name, answer: Option<Answer>, now: Name)
    | StageCandidate(pid: Name, keyring: Keyring, actor: Name, now: Name, durable: nat)
    | CheckReceipt(pid: Name)
    | ReplaceReceipt(pid: Name)
    | Kill(pid: Name)
    | Elsewhere(step: Step)
  {
    predicate Valid() {
      (StageCandidate? ==> keyring.Valid()) && (Elsewhere? ==> step.Valid())
    }
  }

  function Complete(claim: Receipt, result: Result, sha: Option<CandidateSha>, reasons: seq<Name>, now: Name): Receipt {
    claim.(status := CompletedStatus, result := Some(result), candidateSha := sha, reasons := reasons, updatedAt := now)
  }

  /** The reason code under which each of the two coordinators records that nothing came of the work. */
  function NothingReason(key: Key): Name {
    if key.ReflectionKey? then "NO_LEARNING_VALUE" else "NO_REVISION_VALUE"
  }

  function Goto(w: World, pid: Name, pc: Pc): World {
    w.(processes := w.processes[pid := pc])
  }

  /** The checkpointed stage call: under the approval's expectation for a revision, plain for a reflection. */
  function StageReply(
    b: Bound, pid: Name, cfg: Config, key: Key, candidate: Candidate, keyring: Keyring, actor: Name, now: Name,
    durable: nat): BoundReply
    requires keyring.Valid()
  {
    var op := Stage(candidate, actor, "CANDIDATE_STAGED");
    if key.RevisionKey? then MutateUnder(b, pid, key.expected, cfg, keyring, op, now, durable)
    else MutateBound(b, pid, cfg, keyring, op, now, durable)
  }

  /**
    A process without a pending slot stages by the plain mutation: always for a reflection, and for
    a revision exactly when the verified head is the checkpoint that was approved. Else nothing changes.
  */
  lemma StageReplyMeaning(
    b: Bound, pid: Name, cfg: Config, key: Key, candidate: Candidate, keyring: Keyring, actor: Name, now: Name,
    durable: nat)
    requires keyring.Valid() && pid !in b.pending
    ensures var reply := StageReply(b, pid, cfg, key, candidate, keyring, actor, now, durable);
            var plain := Mutate(b.system, cfg, keyring, Stage(candidate, actor, "CANDIDATE_STAGED"), now, durable);
            var verified := VerifyStore(b.system, cfg, keyring);
            if key.ReflectionKey? || (verified.Ok? && key.expected.ForStage? && Matches(key.expected, verified.value))
            then reply == BoundReply(b.(system := plain.system), plain.outcome)
            else reply.bound == b && reply.outcome.Err?
  {
    var op := Stage(candidate, actor, "CANDIDATE_STAGED");
    if key.RevisionKey? {
      if key.expected.ForStage? {
        CeremonyMeaning(b, pid, key.expected, cfg, keyring, op, now, durable);
      } else {
        MismatchedCeremony(b, pid, key.expected, cfg, keyring, op, now, durable);
      }
    }
  }

  lemma MismatchedCeremony(
    b: Bound, pid: Name, e: Expectation, cfg: Config, keyring: Keyring, op: Operation, now: Name, durable: nat)
    requires keyring.Valid() && pid !in b.pending && !Suits(e, op)
    ensures var reply := MutateUnder(b, pid, e, cfg, keyring, op, now, durable);
            reply.bound == b && reply.outcome == Err(ExpectationKindMismatch)
  {
    assert Expect(b, pid, e).value.pending - {pid} == b.pending;
  }

  /** One atomic step of one process; a move that does not apply changes nothing. */
  function Apply(w: World, cfg: Config, move: Move): World
    requires move.Valid()
  {
    match move
    case Launch(pid, key) => if pid in w.processes then w else Goto(w, pid, Ready(key))
    case Kill(pid) => w.(processes := w.processes - {pid})
    case Elsewhere(step) => w.(bound := ApplyStep(w.bound, cfg, step))
    case _ => if move.pid !in w.processes then w else StepProcess(w, cfg, move, w.processes[move.pid])
  }

  function StepProcess(w: World, cfg: Config, move: Move, pc: Pc): World
    requires move.Valid() && !move.Launch? && !move.Kill? && !move.Elsewhere?
  {
    var pid := move.pid;
    match pc
    case Ready(key) =>
      if !move.CreateFile? then w
      else if key in w.files then Goto(w, pid, Stopped)
      else Goto(w.(files := w.files[key := Torn]), pid, Created(key))
    case Created(key) =>
      if !move.WriteClaim? then w
      else
        var claim := Receipt(key, move.binding, ClaimedStatus, None, None, [], move.now, move.now);
        Goto(w.(files := w.files[key := Stored(claim)]), pid, Claimed(claim))
    case Claimed(claim) =>
      if !move.RunWorker? then w
      else
        var ran := w.(log := w.log + [WorkerRan(claim.key)]);
        (match move.answer
         case None => Goto(ran, pid, Stopped)
         case Some(Nothing) =>
           Goto(ran, pid, Settled(claim, Complete(claim, NoValue, None, [NothingReason(claim.key)], move.now)))
         case Some(Refused(reason)) =>
           Goto(ran, pid, Settled(claim, Complete(claim, RejectedResult, None, [reason], move.now)))
         case Some(Proposal(candidate)) => Goto(ran, pid, Proposed(claim, candidate)))
    case Proposed(claim, candidate) =>
      if !move.StageCandidate? then w
      else
        var reply := StageReply(w.bound, pid, cfg, claim.key, candidate, move.keyring, move.actor, move.now, move.durable);
        var called := w.(bound := reply.bound, log := w.log + [StageCalled(claim.key)]);
        if reply.outcome.Err? then Goto(called, pid, Stopped)
        else Goto(called, pid, Settled(claim, Complete(claim, StagedResult, Some(CandidateSha(candidate)), [], move.now)))
    case Settled(claim, final) =>
      if !move.CheckReceipt? then w
      else if claim.key in w.files && w.files[claim.key] == Stored(claim) && claim.status.ClaimedStatus?
      then Goto(w, pid, Completing(claim, final))
      else Goto(w, pid, Stopped)
    case Completing(claim, final) =>
      if !move.ReplaceReceipt? then w
      else Goto(w.(files := w.files[claim.key := Stored(final)]), pid, Stopped)
    case Stopped => w
  }

  predicate ValidMoves(moves: seq<Move>) {
    forall i | 0 <= i < |moves| :: moves[i].Valid()
  }

  function RunMoves(w: World, cfg: Config, moves: seq<Move>): World
    requires ValidMoves(moves)
  {
    if moves == [] then w else Apply(RunMoves(w, cfg, moves[..|moves| - 1]), cfg, moves[|moves| - 1])
  }

  predicate Initial(w: World) {
    w.files == map[] && w.processes == map[] && w.log == []
  }

  // ---------- Invariant ----------

  function Times(log: seq<Effect>, effect: Effect): nat {
    if log == [] then 0 else Times(log[..|log| - 1], effect) + if log[|log| - 1] == effect then 1 else 0
  }

  /** The candidate has a version row as first staged. */
  predicate WasStaged(store: Store, sha: CandidateSha) {
    exists i | 0 <= i < |store.versions| :: store.versions[i].candidateSha == sha && store.versions[i].level.CandidateLevel?
  }

  /** A final receipt that says STAGED names a candidate that the store holds. */
  predicate Truthful(store: Store, receipt: Receipt) {
    receipt.status.CompletedStatus? && receipt.result == Some(StagedResult) ==>
      receipt.candidateSha.Some? && WasStaged(store, receipt.candidateSha.value)
  }

  predicate ProcessOk(w: World, pc: Pc) {
    match pc
    case Ready(_) => true
    case Created(key) => key in w.files && w.files[key].Torn?
    case Claimed(claim) => OwnClaim(w, claim)
    case Proposed(claim, _) => OwnClaim(w, claim)
    case Settled(claim, final) => OwnClaim(w, claim) && FinalOf(w, claim, final)
    case Completing(claim, final) => OwnClaim(w, claim) && FinalOf(w, claim, final)
    case Stopped => true
  }

  predicate OwnClaim(w: World, claim: Receipt) {
    claim.key in w.files && w.files[claim.key] == Stored(claim) && claim.status.ClaimedStatus?
  }

  predicate FinalOf(w: World, claim: Receipt, final: Receipt) {
    final.key == claim.key && final.status.CompletedStatus? && Truthful(w.bound.system.store, final)
  }

  /** At most one run and one call so far, and none before the claim is written. */
  ghost predicate SpentOk(w: World, key: Key) {
    && Times(w.log, WorkerRan(key)) <= 1 && Times(w.log, StageCalled(key)) <= 1
    && (key !in w.files || w.files[key].Torn? ==>
          Times(w.log, WorkerRan(key)) == 0 && Times(w.log, StageCalled(key)) == 0)
  }

  /** A process before its worker, or before its stage call, finds that still to spend. */
  ghost predicate UnspentOk(w: World, key: Key) {
    && (forall pid | pid in w.processes && w.processes[pid].Claimed? && w.processes[pid].claim.key == key ::
          Times(w.log, WorkerRan(key)) == 0 && Times(w.log, StageCalled(key)) == 0)
    && (forall pid | pid in w.processes && w.processes[pid].Proposed? && w.processes[pid].claim.key == key ::
          Times(w.log, StageCalled(key)) == 0)
  }

  /** How many more worker runs and stage calls a key's file and holder still allow. */
  ghost predicate BudgetOk(w: World, key: Key) {
    SpentOk(w, key) && UnspentOk(w, key)
  }

  /** No two processes hold one key. */
  ghost predicate OneHolder(processes: map<Name, Pc>) {
    forall p, q, key | p in processes && q in processes && processes[p].Holds(key) && processes[q].Holds(key) :: p == q
  }

  /** Every written receipt is filed under its key and tells the truth about the store. */
  ghost predicate FilesOk(w: World) {
    forall key | key in w.files && w.files[key].Stored? ::
      w.files[key].receipt.key == key && Truthful(w.bound.system.store, w.files[key].receipt)
  }

  ghost predicate Inv(w: World, cfg: Config) {
    && Coherent(w.bound.system, cfg)
    && (forall pid | pid in w.processes :: ProcessOk(w, w.processes[pid]))
    && OneHolder(w.processes)
    && FilesOk(w)
    && (forall key :: BudgetOk(w, key))
  }

  // ---------- Every step keeps the invariant ----------

  lemma TruthPersists(earlier: Store, later: Store, receipt: Receipt)
    requires Extends(later, earlier) && Truthful(earlier, receipt)
    ensures Truthful(later, receipt)
  {
  }

  /** A stage call that reports success leaves the candidate's row in the store. */
  lemma StagePerformed(store: Store, c: Candidate, actor: Name, reason: Name, now: Name)
    requires ValidStore(store) && PerformStage(store, c, actor, reason, now).Ok?
    ensures WasStaged(PerformStage(store, c, actor, reason, now).value, CandidateSha(c))
  {
    var staged := (v: Version) => v.candidateId == c.id && v.level.CandidateLevel?;
    var after := PerformStage(store, c, actor, reason, now).value;
    if LastWhere(store.versions, staged).Some? {
      var k := LastWhereIndex(store.versions, staged);
      assert after.versions[k].candidateSha == CandidateSha(c);
    } else {
      assert after.versions[|store.versions|] == StageRow(store, c, now);
    }
  }

  lemma AdvanceKeepsStore(
    sys: System, cfg: Config, keyring: Keyring, before: Record, mutation: Mutation, now: Name, durable: nat)
    requires keyring.Valid()
    ensures Advance(sys, cfg, keyring, before, mutation, now, durable).system.store == sys.store
  {
  }

  lemma MutationPerformed(sys: System, cfg: Config, keyring: Keyring, before: Record, op: Operation, now: Name, durable: nat)
    requires keyring.Valid() && MutateFrom(sys, cfg, keyring, before, op, now, durable).outcome.Ok?
    ensures Perform(sys.store, op, now).Ok?
    ensures MutateFrom(sys, cfg, keyring, before, op, now, durable).system.store == Perform(sys.store, op, now).value
  {
    var store := Perform(sys.store, op, now).value;
    AdvanceKeepsStore(sys.(store := store), cfg, keyring, before, MutationOf(op), now,
                      if store != sys.store && durable > 0 then durable - 1 else durable);
  }

  lemma BoundStageKeeps(
    b: Bound, thread: Name, cfg: Config, keyring: Keyring, c: Candidate, actor: Name, reason: Name, now: Name, durable: nat)
    requires Coherent(b.system, cfg) && keyring.Valid()
    ensures var reply := MutateBound(b, thread, cfg, keyring, Stage(c, actor, reason), now, durable);
            && Coherent(reply.bound.system, cfg) && Grows(reply.bound.system, b.system)
            && (reply.outcome.Ok? ==> WasStaged(reply.bound.system.store, CandidateSha(c)))
  {
    BoundMutationKeeps(b, thread, cfg, keyring, Stage(c, actor, reason), now, durable);
    if MutateBound(b, thread, cfg, keyring, Stage(c, actor, reason), now, durable).outcome.Ok? {
      BoundStagePerformed(b, thread, cfg, keyring, c, actor, reason, now, durable);
    }
  }

  lemma BoundMutationKeeps(
    b: Bound, thread: Name, cfg: Config, keyring: Keyring, op: Operation, now: Name, durable: nat)
    requires Coherent(b.system, cfg) && keyring.Valid()
    ensures var after := MutateBound(b, thread, cfg, keyring, op, now, durable).bound.system;
            Coherent(after, cfg) && Grows(after, b.system)
  {
    ApplyStepKeeps(b, cfg, BoundMutate(thread, keyring, op, now, durable));
  }

  lemma BoundStagePerformed(
    b: Bound, thread: Name, cfg: Config, keyring: Keyring, c: Candidate, actor: Name, reason: Name, now: Name, durable: nat)
    requires ValidStore(b.system.store) && keyring.Valid()
    requires MutateBound(b, thread, cfg, keyring, Stage(c, actor, reason), now, durable).outcome.Ok?
    ensures WasStaged(MutateBound(b, thread, cfg, keyring, Stage(c, actor, reason), now, durable).bound.system.store,
                      CandidateSha(c))
  {
    var before := VerifyBound(b, thread, cfg, keyring).outcome.value;
    MutationPerformed(b.system, cfg, keyring, before, Stage(c, actor, reason), now, durable);
    StagePerformed(b.system.store, c, actor, reason, now);
  }

  lemma StageReplyKeeps(
    b: Bound, pid: Name, cfg: Config, key: Key, candidate: Candidate, keyring: Keyring, actor: Name, now: Name,
    durable: nat)
    requires Coherent(b.system, cfg) && keyring.Valid()
    ensures var reply := StageReply(b, pid, cfg, key, candidate, keyring, actor, now, durable);
            && Coherent(reply.bound.system, cfg) && Grows(reply.bound.system, b.system)
            && (reply.outcome.Ok? ==> WasStaged(reply.bound.system.store, CandidateSha(candidate)))
  {
    BoundStageKeeps(b, pid, cfg, keyring, candidate, actor, "CANDIDATE_STAGED", now, durable);
    if key.RevisionKey? && Expect(b, pid, key.expected).Ok? {
      var begun := Expect(b, pid, key.expected).value;
      BoundStageKeeps(begun, pid, cfg, keyring, candidate, actor, "CANDIDATE_STAGED", now, durable);
    }
  }

  /** Replacing the files under the learner by later generations disturbs nothing. */
  lemma GrowthKeepsInv(w: World, cfg: Config, bound: Bound)
    requires Inv(w, cfg) && Coherent(bound.system, cfg) && Grows(bound.system, w.bound.system)
    ensures Inv(w.(bound := bound), cfg)
  {
    var after := w.(bound := bound);
    forall pid | pid in after.processes ensures ProcessOk(after, after.processes[pid]) {
      assert ProcessOk(w, w.processes[pid]);
      match w.processes[pid]
      case Settled(_, final) => TruthPersists(w.bound.system.store, bound.system.store, final);
      case Completing(_, final) => TruthPersists(w.bound.system.store, bound.system.store, final);
      case _ =>
    }
    forall key | key in after.files && after.files[key].Stored?
      ensures Truthful(bound.system.store, after.files[key].receipt)
    {
      TruthPersists(w.bound.system.store, bound.system.store, w.files[key].receipt);
    }
    forall key ensures BudgetOk(after, key) { assert BudgetOk(w, key); }
  }

  /** A process may stop anywhere, be killed, or move to a state that holds what it held. */
  lemma GotoKeepsInv(w: World, cfg: Config, pid: Name, pc: Pc)
    requires Inv(w, cfg) && ProcessOk(w, pc)
    requires forall key | pc.Holds(key) :: pid in w.processes && w.processes[pid].Holds(key)
    requires !pc.Claimed? && !pc.Proposed?
    ensures Inv(Goto(w, pid, pc), cfg)
  {
    var after := Goto(w, pid, pc);
    forall p | p in after.processes ensures ProcessOk(after, after.processes[p]) {
      if p != pid { assert ProcessOk(w, w.processes[p]); }
    }
    forall key ensures BudgetOk(after, key) { assert BudgetOk(w, key); }
  }

  lemma KillKeepsInv(w: World, cfg: Config, pid: Name)
    requires Inv(w, cfg)
    ensures Inv(w.(processes := w.processes - {pid}), cfg)
  {
    var after := w.(processes := w.processes - {pid});
    forall p | p in after.processes ensures ProcessOk(after, after.processes[p]) { assert ProcessOk(w, w.processes[p]); }
    forall key ensures BudgetOk(after, key) { assert BudgetOk(w, key); }
  }

  /** Exclusive creation: only a key without a file can be created, so nobody holds it. */
  lemma CreateKeepsInv(w: World, cfg: Config, pid: Name, key: Key)
    requires Inv(w, cfg) && pid in w.processes && w.processes[pid] == Ready(key) && key !in w.files
    ensures Inv(Goto(w.(files := w.files[key := Torn]), pid, Created(key)), cfg)
  {
    var after := Goto(w.(files := w.files[key := Torn]), pid, Created(key));
    forall p | p in after.processes ensures ProcessOk(after, after.processes[p]) {
      if p != pid { assert ProcessOk(w, w.processes[p]); }
    }
    forall p | p in w.processes ensures !w.processes[p].Holds(key) { assert ProcessOk(w, w.processes[p]); }
    forall k ensures BudgetOk(after, k) { assert BudgetOk(w, k); }
  }

  lemma OthersAreUntouched(w: World, after: World, pc: Pc, key: Key)
    requires ProcessOk(w, pc) && !pc.Holds(key)
    requires after.bound == w.bound && forall k | k in w.files && k != key :: k in after.files && after.files[k] == w.files[k]
    ensures ProcessOk(after, pc)
  {
  }

  /** The holder of a key, about to rewrite that key's file in step with its own state. */
  predicate MayRewrite(w: World, pid: Name, key: Key, receipt: Receipt, pc: Pc) {
    && pid in w.processes && w.processes[pid].Holds(key) && receipt.key == key
    && Truthful(w.bound.system.store, receipt)
    && (|| (w.processes[pid].Created? && pc == Claimed(receipt) && receipt.status.ClaimedStatus?)
        || (w.processes[pid].Completing? && pc == Stopped))
  }

  function Rewritten(w: World, pid: Name, key: Key, receipt: Receipt, pc: Pc): World {
    Goto(w.(files := w.files[key := Stored(receipt)]), pid, pc)
  }

  lemma RewriteKeepsProcesses(w: World, cfg: Config, pid: Name, key: Key, receipt: Receipt, pc: Pc, p: Name)
    requires Inv(w, cfg) && MayRewrite(w, pid, key, receipt, pc) && p in Rewritten(w, pid, key, receipt, pc).processes
    ensures ProcessOk(Rewritten(w, pid, key, receipt, pc), Rewritten(w, pid, key, receipt, pc).processes[p])
  {
    if p != pid {
      assert !w.processes[p].Holds(key);
      OthersAreUntouched(w, Rewritten(w, pid, key, receipt, pc), w.processes[p], key);
    }
  }

  lemma RewriteKeepsHolders(w: World, cfg: Config, pid: Name, key: Key, receipt: Receipt, pc: Pc)
    requires Inv(w, cfg) && MayRewrite(w, pid, key, receipt, pc)
    ensures OneHolder(Rewritten(w, pid, key, receipt, pc).processes)
  {
  }

  lemma RewriteKeepsFiles(w: World, cfg: Config, pid: Name, key: Key, receipt: Receipt, pc: Pc)
    requires Inv(w, cfg) && MayRewrite(w, pid, key, receipt, pc)
    ensures FilesOk(Rewritten(w, pid, key, receipt, pc))
  {
  }

  /** The holder of a key may rewrite that key's file, in step with its own state. */
  lemma RewriteKeepsInv(w: World, cfg: Config, pid: Name, key: Key, receipt: Receipt, pc: Pc)
    requires Inv(w, cfg) && MayRewrite(w, pid, key, receipt, pc)
    ensures Inv(Rewritten(w, pid, key, receipt, pc), cfg)
  {
    var after := Rewritten(w, pid, key, receipt, pc);
    forall p | p in after.processes ensures ProcessOk(after, after.processes[p]) {
      RewriteKeepsProcesses(w, cfg, pid, key, receipt, pc, p);
    }
    RewriteKeepsHolders(w, cfg, pid, key, receipt, pc);
    RewriteKeepsFiles(w, cfg, pid, key, receipt, pc);
    forall k ensures BudgetOk(after, k) { RewriteKeepsBudget(w, cfg, pid, key, receipt, pc, k); }
  }

  lemma RewriteKeepsBudget(w: World, cfg: Config, pid: Name, key: Key, receipt: Receipt, pc: Pc, k: Key)
    requires Inv(w, cfg) && MayRewrite(w, pid, key, receipt, pc)
    ensures BudgetOk(Rewritten(w, pid, key, receipt, pc), k)
  {
    var after := Rewritten(w, pid, key, receipt, pc);
    assert ProcessOk(w, w.processes[pid]) && BudgetOk(w, k);
    forall p | p in after.processes && p != pid && (after.processes[p].Claimed? || after.processes[p].Proposed?)
      ensures after.processes[p].claim.key != key
    {
      assert !w.processes[p].Holds(key);
    }
  }

  lemma TimesAppend(log: seq<Effect>, effect: Effect, counted: Effect)
    ensures Times(log + [effect], counted) == Times(log, counted) + if effect == counted then 1 else 0
  {
  }

  /** The spender still had the run or the call to spend, and nobody else holds its key. */
  predicate MaySpend(w: World, pid: Name, claim: Receipt, effect: Effect, pc: Pc) {
    && pid in w.processes && ProcessOk(w, pc) && !pc.Claimed? && (pc.Proposed? ==> pc.claim.key == claim.key)
    && (|| (w.processes[pid] == Claimed(claim) && effect == WorkerRan(claim.key))
        || (w.processes[pid].Proposed? && w.processes[pid].claim == claim && effect == StageCalled(claim.key)
            && !pc.Proposed?))
  }

  lemma SpendKeepsSpent(w: World, cfg: Config, pid: Name, claim: Receipt, effect: Effect, pc: Pc, key: Key)
    requires Inv(w, cfg) && MaySpend(w, pid, claim, effect, pc)
    ensures SpentOk(Goto(w.(log := w.log + [effect]), pid, pc), key)
  {
    assert ProcessOk(w, w.processes[pid]) && BudgetOk(w, key);
    TimesAppend(w.log, effect, WorkerRan(key));
    TimesAppend(w.log, effect, StageCalled(key));
  }

  lemma SpendKeepsUnspent(w: World, pid: Name, claim: Receipt, effect: Effect, pc: Pc, key: Key)
    requires OneHolder(w.processes) && UnspentOk(w, key) && MaySpend(w, pid, claim, effect, pc)
    ensures UnspentOk(Goto(w.(log := w.log + [effect]), pid, pc), key)
  {
    TimesAppend(w.log, effect, WorkerRan(key));
    TimesAppend(w.log, effect, StageCalled(key));
    if key == claim.key { OnlyHolder(w, pid, key); }
  }

  lemma OnlyHolder(w: World, pid: Name, key: Key)
    requires OneHolder(w.processes) && pid in w.processes && w.processes[pid].Holds(key)
    ensures forall p | p in w.processes && p != pid :: !w.processes[p].Holds(key)
  {
  }

  lemma SpendKeepsInv(w: World, cfg: Config, pid: Name, claim: Receipt, effect: Effect, pc: Pc)
    requires Inv(w, cfg) && MaySpend(w, pid, claim, effect, pc)
    requires forall key | pc.Holds(key) :: key == claim.key
    ensures Inv(Goto(w.(log := w.log + [effect]), pid, pc), cfg)
  {
    var after := Goto(w.(log := w.log + [effect]), pid, pc);
    assert w.processes[pid].Holds(claim.key);
    forall p | p in after.processes ensures ProcessOk(after, after.processes[p]) {
      if p != pid { assert ProcessOk(w, w.processes[p]); }
    }
    forall key ensures BudgetOk(after, key) {
      SpendKeepsSpent(w, cfg, pid, claim, effect, pc, key);
      assert BudgetOk(w, key);
      SpendKeepsUnspent(w, pid, claim, effect, pc, key);
    }
  }

  lemma ApplyKeepsInv(w: World, cfg: Config, move: Move)
    requires Inv(w, cfg) && move.Valid()
    ensures Inv(Apply(w, cfg, move), cfg)
  {
    match move
    case Launch(pid, key) => if pid !in w.processes { GotoKeepsInv(w, cfg, pid, Ready(key)); }
    case Kill(pid) => KillKeepsInv(w, cfg, pid);
    case Elsewhere(step) =>
      ApplyStepKeeps(w.bound, cfg, step);
      GrowthKeepsInv(w, cfg, ApplyStep(w.bound, cfg, step));
    case _ => if move.pid in w.processes { StepProcessKeepsInv(w, cfg, move); }
  }

  lemma StepProcessKeepsInv(w: World, cfg: Config, move: Move)
    requires Inv(w, cfg) && move.Valid() && !move.Launch? && !move.Kill? && !move.Elsewhere?
    requires move.pid in w.processes
    ensures Inv(StepProcess(w, cfg, move, w.processes[move.pid]), cfg)
  {
    var pid := move.pid;
    assert ProcessOk(w, w.processes[pid]);
    match w.processes[pid]
    case Ready(key) =>
      if move.CreateFile? {
        if key in w.files { GotoKeepsInv(w, cfg, pid, Stopped); } else { CreateKeepsInv(w, cfg, pid, key); }
      }
    case Created(key) =>
      if move.WriteClaim? {
        var claim := Receipt(key, move.binding, ClaimedStatus, None, None, [], move.now, move.now);
        RewriteKeepsInv(w, cfg, pid, key, claim, Claimed(claim));
      }
    case Claimed(claim) => if move.RunWorker? { WorkerStepKeepsInv(w, cfg, move, claim); }
    case Proposed(claim, candidate) => if move.StageCandidate? { StageStepKeepsInv(w, cfg, move, claim, candidate); }
    case Settled(claim, final) => if move.CheckReceipt? { GotoKeepsInv(w, cfg, pid, Completing(claim, final)); }
    case Completing(claim, final) => if move.ReplaceReceipt? { RewriteKeepsInv(w, cfg, pid, claim.key, final, Stopped); }
    case Stopped =>
  }

  lemma WorkerStepKeepsInv(w: World, cfg: Config, move: Move, claim: Receipt)
    requires Inv(w, cfg) && move.RunWorker? && move.pid in w.processes && w.processes[move.pid] == Claimed(claim)
    ensures Inv(StepProcess(w, cfg, move, w.processes[move.pid]), cfg)
  {
    assert ProcessOk(w, w.processes[move.pid]);
    var pc := match move.answer
      case None => Stopped
      case Some(Nothing) => Settled(claim, Complete(claim, NoValue, None, [NothingReason(claim.key)], move.now))
      case Some(Refused(reason)) => Settled(claim, Complete(claim, RejectedResult, None, [reason], move.now))
      case Some(Proposal(candidate)) => Proposed(claim, candidate);
    SpendKeepsInv(w, cfg, move.pid, claim, WorkerRan(claim.key), pc);
  }

  lemma StageStepKeepsInv(w: World, cfg: Config, move: Move, claim: Receipt, candidate: Candidate)
    requires Inv(w, cfg) && move.StageCandidate? && move.Valid()
    requires move.pid in w.processes && w.processes[move.pid] == Proposed(claim, candidate)
    ensures Inv(StepProcess(w, cfg, move, w.processes[move.pid]), cfg)
  {
    assert ProcessOk(w, w.processes[move.pid]);
    var reply := StageReply(w.bound, move.pid, cfg, claim.key, candidate, move.keyring, move.actor, move.now, move.durable);
    StageReplyKeeps(w.bound, move.pid, cfg, claim.key, candidate, move.keyring, move.actor, move.now, move.durable);
    StageSettles(w, cfg, move.pid, claim, candidate, reply.bound,
      if reply.outcome.Err? then Stopped
      else Settled(claim, Complete(claim, StagedResult, Some(CandidateSha(candidate)), [], move.now)));
  }

  lemma StageSettles(w: World, cfg: Config, pid: Name, claim: Receipt, candidate: Candidate, bound: Bound, pc: Pc)
    requires Inv(w, cfg) && pid in w.processes && w.processes[pid] == Proposed(claim, candidate)
    requires Coherent(bound.system, cfg) && Grows(bound.system, w.bound.system)
    requires pc.Stopped? || (pc.Settled? && pc.claim == claim && pc.final.key == claim.key
                             && pc.final.status.CompletedStatus? && Truthful(bound.system.store, pc.final))
    ensures Inv(Goto(w.(bound := bound, log := w.log + [StageCalled(claim.key)]), pid, pc), cfg)
  {
    assert ProcessOk(w, w.processes[pid]);
    GrowthKeepsInv(w, cfg, bound);
    SpendKeepsInv(w.(bound := bound), cfg, pid, claim, StageCalled(claim.key), pc);
  }

  // ---------- Whole runs ----------

  lemma {:induction false} RunMovesKeepInv(w: World, cfg: Config, moves: seq<Move>)
    requires Inv(w, cfg) && ValidMoves(moves)
    ensures Inv(RunMoves(w, cfg, moves), cfg)
  {
    if moves != [] {
      RunMovesKeepInv(w, cfg, moves[..|moves| - 1]);
      ApplyKeepsInv(RunMoves(w, cfg, moves[..|moves| - 1]), cfg, moves[|moves| - 1]);
    }
  }

  // ---------- What a receipt was paid with ----------

  /** A completed receipt was preceded by its own worker run, and a STAGED one by its own stage call. */
  predicate Earned(log: seq<Effect>, receipt: Receipt) {
    receipt.status.CompletedStatus? ==>
      WorkerRan(receipt.key) in log && (receipt.result == Some(StagedResult) ==> StageCalled(receipt.key) in log)
  }

  predicate EarnedSoFar(log: seq<Effect>, pc: Pc) {
    match pc
    case Proposed(claim, _) => WorkerRan(claim.key) in log
    case Settled(_, final) => Earned(log, final)
    case Completing(_, final) => Earned(log, final)
    case _ => true
  }

  ghost predicate AllEarned(w: World) {
    && (forall pid | pid in w.processes :: EarnedSoFar(w.log, w.processes[pid]))
    && (forall key | key in w.files && w.files[key].Stored? :: Earned(w.log, w.files[key].receipt))
  }

  lemma GotoKeepsEarned(w: World, files: map<Key, File>, bound: Bound, log: seq<Effect>, pid: Name, pc: Pc)
    requires AllEarned(w) && w.log <= log && EarnedSoFar(log, pc)
    requires forall key | key in files && files[key].Stored? ::
               (key in w.files && files[key] == w.files[key]) || Earned(log, files[key].receipt)
    ensures AllEarned(World(bound, files, w.processes[pid := pc], log))
  {
    forall p | p in w.processes ensures EarnedSoFar(log, w.processes[p]) {
      assert EarnedSoFar(w.log, w.processes[p]);
    }
    forall key | key in files && files[key].Stored? ensures Earned(log, files[key].receipt) {
      if key in w.files && files[key] == w.files[key] { assert Earned(w.log, w.files[key].receipt); }
    }
  }

  lemma StepKeepsEarned(w: World, cfg: Config, move: Move)
    requires AllEarned(w) && move.Valid() && !move.Launch? && !move.Kill? && !move.Elsewhere?
    requires move.pid in w.processes
    ensures AllEarned(StepProcess(w, cfg, move, w.processes[move.pid]))
  {
    var pid := move.pid;
    var after := StepProcess(w, cfg, move, w.processes[pid]);
    assert EarnedSoFar(w.log, w.processes[pid]);
    if after != w {
      StepPays(w, cfg, move);
      GotoKeepsEarned(w, after.files, after.bound, after.log, pid, after.processes[pid]);
    }
  }

  /** A step of one process pays for the state that it moves to and for the file that it writes. */
  lemma StepPays(w: World, cfg: Config, move: Move)
    requires move.Valid() && !move.Launch? && !move.Kill? && !move.Elsewhere?
    requires move.pid in w.processes && EarnedSoFar(w.log, w.processes[move.pid])
    requires StepProcess(w, cfg, move, w.processes[move.pid]) != w
    ensures var after := StepProcess(w, cfg, move, w.processes[move.pid]);
            && w.log <= after.log && move.pid in after.processes && EarnedSoFar(after.log, after.processes[move.pid])
            && after.processes == w.processes[move.pid := after.processes[move.pid]]
            && (forall key | key in after.files && after.files[key].Stored? ::
                  (key in w.files && after.files[key] == w.files[key]) || Earned(after.log, after.files[key].receipt))
  {
    match w.processes[move.pid]
    case Claimed(claim) => assert (w.log + [WorkerRan(claim.key)])[|w.log|] == WorkerRan(claim.key);
    case Proposed(claim, _) => assert (w.log + [StageCalled(claim.key)])[|w.log|] == StageCalled(claim.key);
    case _ =>
  }

  lemma ApplyKeepsEarned(w: World, cfg: Config, move: Move)
    requires AllEarned(w) && move.Valid()
    ensures AllEarned(Apply(w, cfg, move))
  {
    match move
    case Launch(pid, key) =>
    case Kill(pid) =>
    case Elsewhere(step) =>
    case _ => if move.pid in w.processes { StepKeepsEarned(w, cfg, move); }
  }

  lemma {:induction false} RunMovesKeepEarned(w: World, cfg: Config, moves: seq<Move>)
    requires AllEarned(w) && ValidMoves(moves)
    ensures AllEarned(RunMoves(w, cfg, moves))
  {
    if moves != [] {
      RunMovesKeepEarned(w, cfg, moves[..|moves| - 1]);
      ApplyKeepsEarned(RunMoves(w, cfg, moves[..|moves| - 1]), cfg, moves[|moves| - 1]);
    }
  }

  lemma {:induction false} MembersAreCounted(log: seq<Effect>, effect: Effect)
    ensures effect in log <==> Times(log, effect) >= 1
  {
    if log != [] { MembersAreCounted(log[..|log| - 1], effect); }
  }

  /** A stored receipt as the whole run allows it. */
  ghost predicate Justified(w: World, key: Key, receipt: Receipt) {
    && receipt.key == key && Truthful(w.bound.system.store, receipt)
    && (receipt.status.CompletedStatus? ==> Times(w.log, WorkerRan(key)) == 1)
    && (receipt.status.CompletedStatus? && receipt.result == Some(StagedResult) ==> Times(w.log, StageCalled(key)) == 1)
  }

  /**
    Under any interleaving of any number of coordinators, killed anywhere: for every receipt
    key the worker runs at most once and stage is called at most once, a completed receipt
    means that its worker ran exactly once, and a receipt that says STAGED that stage was called
    exactly once for it and that the candidate's version row is in the store.
  */
  lemma ClaimSafety(w: World, cfg: Config, moves: seq<Move>)
    requires Initial(w) && Coherent(w.bound.system, cfg) && ValidMoves(moves)
    ensures var after := RunMoves(w, cfg, moves);
            && (forall key :: Times(after.log, WorkerRan(key)) <= 1 && Times(after.log, StageCalled(key)) <= 1)
            && (forall key | key in after.files && after.files[key].Stored? ::
                  Justified(after, key, after.files[key].receipt))
  {
    RunMovesKeepInv(w, cfg, moves);
    RunMovesKeepEarned(w, cfg, moves);
    InvariantsJustify(RunMoves(w, cfg, moves), cfg);
  }

  lemma InvariantsJustify(w: World, cfg: Config)
    requires Inv(w, cfg) && AllEarned(w)
    ensures forall key :: Times(w.log, WorkerRan(key)) <= 1 && Times(w.log, StageCalled(key)) <= 1
    ensures forall key | key in w.files && w.files[key].Stored? :: Justified(w, key, w.files[key].receipt)
  {
    forall key ensures Times(w.log, WorkerRan(key)) <= 1 && Times(w.log, StageCalled(key)) <= 1 {
      assert BudgetOk(w, key);
    }
    forall key | key in w.files && w.files[key].Stored? ensures Justified(w, key, w.files[key].receipt) {
      assert Earned(w.log, w.files[key].receipt);
      MembersAreCounted(w.log, WorkerRan(key));
      MembersAreCounted(w.log, StageCalled(key));
    }
  }

  /** A key's file goes from absent to torn to claimed to completed, one stage at a time, and never back. */
  function FileStage(w: World, key: Key): nat {
    if key !in w.files then 0
    else if w.files[key].Torn? then 1
    else if w.files[key].receipt.status.ClaimedStatus? then 2
    else 3
  }

  lemma FileMovesForward(w: World, cfg: Config, move: Move, key: Key)
    requires Inv(w, cfg) && move.Valid()
    ensures FileStage(w, key) <= FileStage(Apply(w, cfg, move), key) <= FileStage(w, key) + 1
    ensures FileStage(Apply(w, cfg, move), key) == FileStage(w, key) && key in w.files ==>
              Apply(w, cfg, move).files[key] == w.files[key]
  {
    if !move.Launch? && !move.Kill? && !move.Elsewhere? && move.pid in w.processes {
      StepMovesFileForward(w, cfg, move, key);
    } else {
      OutsideLeavesFiles(w, cfg, move);
    }
  }

  lemma OutsideLeavesFiles(w: World, cfg: Config, move: Move)
    requires move.Valid() && (move.Launch? || move.Kill? || move.Elsewhere? || move.pid !in w.processes)
    ensures Apply(w, cfg, move).files == w.files
  {
  }

  lemma StepMovesFileForward(w: World, cfg: Config, move: Move, key: Key)
    requires Inv(w, cfg) && move.Valid() && !move.Launch? && !move.Kill? && !move.Elsewhere?
    requires move.pid in w.processes
    ensures MovedOn(w, StepProcess(w, cfg, move, w.processes[move.pid]), key)
  {
    var pid := move.pid;
    assert ProcessOk(w, w.processes[pid]);
    match w.processes[pid]
    case Created(own) => CreatedMovesFile(w, cfg, move, own, key);
    case Completing(claim, final) => CompletingMovesFile(w, cfg, move, claim, final, key);
    case Ready(own) => ReadyMovesFile(w, cfg, move, own, key);
    case Claimed(_) => OtherMovesLeaveFiles(w, cfg, move);
    case Proposed(_, _) => OtherMovesLeaveFiles(w, cfg, move);
    case Settled(_, _) => OtherMovesLeaveFiles(w, cfg, move);
    case Stopped => OtherMovesLeaveFiles(w, cfg, move);
  }

  /** The file of a key took at most one step forward, or is the same. */
  predicate MovedOn(w: World, after: World, key: Key) {
    && FileStage(w, key) <= FileStage(after, key) <= FileStage(w, key) + 1
    && (FileStage(after, key) == FileStage(w, key) && key in w.files ==> after.files[key] == w.files[key])
  }

  lemma ReadyMovesFile(w: World, cfg: Config, move: Move, own: Key, key: Key)
    requires move.Valid() && !move.Launch? && !move.Kill? && !move.Elsewhere?
    ensures MovedOn(w, StepProcess(w, cfg, move, Ready(own)), key)
  {
  }

  lemma CreatedMovesFile(w: World, cfg: Config, move: Move, own: Key, key: Key)
    requires move.Valid() && !move.Launch? && !move.Kill? && !move.Elsewhere?
    requires own in w.files && w.files[own].Torn?
    ensures MovedOn(w, StepProcess(w, cfg, move, Created(own)), key)
  {
  }

  lemma CompletingMovesFile(w: World, cfg: Config, move: Move, claim: Receipt, final: Receipt, key: Key)
    requires move.Valid() && !move.Launch? && !move.Kill? && !move.Elsewhere?
    requires OwnClaim(w, claim) && FinalOf(w, claim, final)
    ensures MovedOn(w, StepProcess(w, cfg, move, Completing(claim, final)), key)
  {
  }

  lemma OtherMovesLeaveFiles(w: World, cfg: Config, move: Move)
    requires move.Valid() && !move.Launch? && !move.Kill? && !move.Elsewhere? && move.pid in w.processes
    requires !w.processes[move.pid].Ready? && !w.processes[move.pid].Created? && !w.processes[move.pid].Completing?
    ensures StepProcess(w, cfg, move, w.processes[move.pid]).files == w.files
  {
  }

  lemma {:induction false} ReceiptsMoveForward(w: World, cfg: Config, moves: seq<Move>, key: Key)
    requires Inv(w, cfg) && ValidMoves(moves)
    ensures FileStage(w, key) <= FileStage(RunMoves(w, cfg, moves), key)
    ensures FileStage(RunMoves(w, cfg, moves), key) == FileStage(w, key) && key in w.files ==>
              RunMoves(w, cfg, moves).files[key] == w.files[key]
  {
    if moves != [] {
      var n := |moves| - 1;
      RunMovesKeepInv(w, cfg, moves[..n]);
      ReceiptsMoveForward(w, cfg, moves[..n], key);
      FileMovesForward(RunMoves(w, cfg, moves[..n]), cfg, moves[n], key);
    }
  }
}
