/**
  One-shot expectations over the checkpoint protocol: a reviewer's promotion ceremony and a
  curation approval each name the checkpoint they were prepared against, and the name is
  consumed inside the mutation lock, before the store operation runs.
*/
module Expectations {
  import opened Names
  import opened Wrappers
  import opened HashChain
  import opened LearningStore
  import opened Checkpoint
  import opened CheckpointLaws
  import opened CheckpointRuns

  datatype Expectation =
    | ForPromotion(sequence: nat, stateSha: StateSha)
    | ForStage(sequence: nat, digest: Digest<Signed>, stateSha: StateSha)
  {
    function Kind(): Mutation {
      if ForPromotion? then Promoted else Staged
    }

    function Fault(latest: Record): Option<CheckpointError> {
      if latest.body.fields.sequence != sequence then Some(ExpectedSequenceMismatch)
      else if ForStage? && latest.digest != digest then Some(ExpectedCheckpointMismatch)
      else if latest.body.fields.state.stateSha != stateSha then Some(ExpectedStateMismatch)
      else None
    }
  }

  /** What a promotion ceremony, or a curation proposal set, writes down about a verified checkpoint. */
  function PromotionAgainst(checkpoint: Record): Expectation {
    ForPromotion(checkpoint.body.fields.sequence, checkpoint.body.fields.state.stateSha)
  }

  function StageAgainst(checkpoint: Record): Expectation {
    ForStage(checkpoint.body.fields.sequence, checkpoint.digest, checkpoint.body.fields.state.stateSha)
  }

  /** The files, and each thread's pending expectation. */
  datatype Bound = Bound(system: System, pending: map<Name, Expectation>)

  datatype BoundReply = BoundReply(bound: Bound, outcome: Verdict<Record>)

  function Expect(b: Bound, thread: Name, e: Expectation): Verdict<Bound> {
    if thread in b.pending then Err(ExpectationAlreadyActive) else Ok(b.(pending := b.pending[thread := e]))
  }

  function Release(b: Bound, thread: Name): Bound {
    b.(pending := b.pending - {thread})
  }

  /** Verification that consumes the calling thread's expectation and then compares it. */
  function VerifyBound(b: Bound, thread: Name, cfg: Config, keyring: Keyring): BoundReply {
    match VerifyStore(b.system, cfg, keyring)
    case Err(e) => BoundReply(b, Err(e))
    case Ok(latest) =>
      if thread !in b.pending then BoundReply(b, Ok(latest))
      else
        var fault := b.pending[thread].Fault(latest);
        BoundReply(Release(b, thread), if fault.Some? then Err(fault.value) else Ok(latest))
  }

  function MutateBound(
    b: Bound, thread: Name, cfg: Config, keyring: Keyring, op: Operation, now: Name, durable: nat): BoundReply
    requires keyring.Valid()
  {
    if thread in b.pending && b.pending[thread].Kind() != MutationOf(op) then BoundReply(b, Err(ExpectationKindMismatch))
    else
      var verified := VerifyBound(b, thread, cfg, keyring);
      match verified.outcome
      case Err(e) => verified
      case Ok(before) =>
        var reply := MutateFrom(b.system, cfg, keyring, before, op, now, durable);
        BoundReply(verified.bound.(system := reply.system), reply.outcome)
  }

  /** `with expect: mutate`: begin, mutate, and release whatever happens. */
  function MutateUnder(
    b: Bound, thread: Name, e: Expectation, cfg: Config, keyring: Keyring, op: Operation, now: Name, durable: nat)
    : BoundReply
    requires keyring.Valid()
  {
    match Expect(b, thread, e)
    case Err(error) => BoundReply(b, Err(error))
    case Ok(begun) =>
      var reply := MutateBound(begun, thread, cfg, keyring, op, now, durable);
      reply.(bound := Release(reply.bound, thread))
  }

  // ---------- What an expectation expects ----------

  /** The head has the sequence, the state digest and, for a stage, the record digest that `e` names. */
  predicate Matches(e: Expectation, head: Record) {
    && head.body.fields.sequence == e.sequence
    && head.body.fields.state.stateSha == e.stateSha
    && (e.ForStage? ==> head.digest == e.digest)
  }

  /** A promotion ceremony is for promotions, a curation approval for stages. */
  predicate Suits(e: Expectation, op: Operation) {
    if e.ForPromotion? then op.Promote? else op.Stage?
  }

  lemma FaultMeaning(e: Expectation, head: Record, op: Operation)
    ensures e.Fault(head).None? <==> Matches(e, head)
    ensures e.Kind() == MutationOf(op) <==> Suits(e, op)
  {
  }

  /** What was prepared against `c` is accepted at exactly the heads that agree with `c` in these fields. */
  lemma PreparedExpectationMeaning(c: Record, head: Record)
    ensures Matches(PromotionAgainst(c), head) <==>
              && head.body.fields.sequence == c.body.fields.sequence
              && head.body.fields.state.stateSha == c.body.fields.state.stateSha
    ensures Matches(StageAgainst(c), head) <==>
              && head.body.fields.sequence == c.body.fields.sequence
              && head.body.fields.state.stateSha == c.body.fields.state.stateSha
              && head.digest == c.digest
  {
  }

  /**
    A ceremony in full. With a free slot and an operation that suits, it is the plain mutation if
    the verified head matches the expectation, and otherwise refuses and leaves everything as it was.
  */
  lemma CeremonyMeaning(
    b: Bound, thread: Name, e: Expectation, cfg: Config, keyring: Keyring, op: Operation, now: Name, durable: nat)
    requires keyring.Valid() && thread !in b.pending && Suits(e, op)
    ensures var reply, plain := MutateUnder(b, thread, e, cfg, keyring, op, now, durable),
                                Mutate(b.system, cfg, keyring, op, now, durable);
            if VerifyStore(b.system, cfg, keyring).Ok? && Matches(e, VerifyStore(b.system, cfg, keyring).value)
            then reply == BoundReply(b.(system := plain.system), plain.outcome)
            else reply.bound == b && reply.outcome.Err?
  {
    assert Expect(b, thread, e).value.pending - {thread} == b.pending;
    if VerifyStore(b.system, cfg, keyring).Ok? && Matches(e, VerifyStore(b.system, cfg, keyring).value) {
      MatchingCeremony(b, thread, e, cfg, keyring, op, now, durable);
    }
  }

  lemma MatchingCeremony(
    b: Bound, thread: Name, e: Expectation, cfg: Config, keyring: Keyring, op: Operation, now: Name, durable: nat)
    requires keyring.Valid() && thread !in b.pending && Suits(e, op)
    requires VerifyStore(b.system, cfg, keyring).Ok? && Matches(e, VerifyStore(b.system, cfg, keyring).value)
    ensures var plain := Mutate(b.system, cfg, keyring, op, now, durable);
            MutateUnder(b, thread, e, cfg, keyring, op, now, durable) ==
            BoundReply(b.(system := plain.system), plain.outcome)
  {
    var begun, head := b.(pending := b.pending[thread := e]), VerifyStore(b.system, cfg, keyring).value;
    MatchingVerification(b, thread, e, cfg, keyring);
    assert MutateBound(begun, thread, cfg, keyring, op, now, durable).outcome
           == MutateFrom(b.system, cfg, keyring, head, op, now, durable).outcome;
  }

  lemma MatchingVerification(b: Bound, thread: Name, e: Expectation, cfg: Config, keyring: Keyring)
    requires thread !in b.pending && VerifyStore(b.system, cfg, keyring).Ok?
    requires Matches(e, VerifyStore(b.system, cfg, keyring).value)
    ensures VerifyBound(b.(pending := b.pending[thread := e]), thread, cfg, keyring)
            == BoundReply(b, VerifyStore(b.system, cfg, keyring))
  {
    assert b.pending[thread := e] - {thread} == b.pending;
  }

  /** The refusal names the first field that differs: sequence, then record digest for a stage, then state digest. */
  lemma RefusalNamesField(
    b: Bound, thread: Name, e: Expectation, cfg: Config, keyring: Keyring, op: Operation, now: Name, durable: nat)
    requires keyring.Valid() && VerifyStore(b.system, cfg, keyring).Ok?
    requires !Matches(e, VerifyStore(b.system, cfg, keyring).value)
    ensures var head := VerifyStore(b.system, cfg, keyring).value;
            MutateUnder(b, thread, e, cfg, keyring, op, now, durable) ==
            BoundReply(b, Err(
              if thread in b.pending then ExpectationAlreadyActive
              else if !Suits(e, op) then ExpectationKindMismatch
              else if head.body.fields.sequence != e.sequence then ExpectedSequenceMismatch
              else if e.ForStage? && head.digest != e.digest then ExpectedCheckpointMismatch
              else ExpectedStateMismatch))
  {
    if thread !in b.pending { assert Expect(b, thread, e).value.pending - {thread} == b.pending; }
  }

  /** Prepared against the present head, a ceremony goes through exactly as the plain mutation does. */
  lemma FreshCeremonyIsPlainMutation(
    b: Bound, thread: Name, c: Record, cfg: Config, keyring: Keyring, op: Operation, now: Name, durable: nat)
    requires keyring.Valid() && thread !in b.pending && VerifyStore(b.system, cfg, keyring) == Ok(c)
    ensures var plain := Mutate(b.system, cfg, keyring, op, now, durable);
            && (op.Promote? ==> MutateUnder(b, thread, PromotionAgainst(c), cfg, keyring, op, now, durable) ==
                                  BoundReply(b.(system := plain.system), plain.outcome))
            && (op.Stage? ==> MutateUnder(b, thread, StageAgainst(c), cfg, keyring, op, now, durable) ==
                                BoundReply(b.(system := plain.system), plain.outcome))
  {
    PreparedExpectationMeaning(c, c);
    if op.Promote? { CeremonyMeaning(b, thread, PromotionAgainst(c), cfg, keyring, op, now, durable); }
    if op.Stage? { CeremonyMeaning(b, thread, StageAgainst(c), cfg, keyring, op, now, durable); }
  }

  /** A mutation with a pending expectation passes only if the head is the expected checkpoint. */
  lemma BoundMutationMeaning(
    b: Bound, thread: Name, cfg: Config, keyring: Keyring, op: Operation, now: Name, durable: nat)
    requires keyring.Valid() && thread in b.pending
    ensures var e := b.pending[thread];
            var reply := MutateBound(b, thread, cfg, keyring, op, now, durable);
            && (reply.bound.system != b.system || reply.outcome.Ok? ==>
                  && VerifyStore(b.system, cfg, keyring).Ok? && b.system.journal != []
                  && Suits(e, op) && Matches(e, Last(b.system.journal))
                  && thread !in reply.bound.pending
                  && reply.bound.system == Mutate(b.system, cfg, keyring, op, now, durable).system
                  && reply.outcome == Mutate(b.system, cfg, keyring, op, now, durable).outcome)
            && (reply.bound.pending == b.pending || reply.bound.pending == b.pending - {thread})
  {
    VerifyStoreMeaning(b.system, cfg, keyring);
    if b.system.journal != [] { FaultMeaning(b.pending[thread], Last(b.system.journal), op); }
  }

  // ---------- Runs of any number of threads and processes ----------

  datatype Step =
    | Begin(thread: Name, e: Expectation)
    | End(thread: Name)
    | BoundMutate(thread: Name, keyring: Keyring, op: Operation, now: Name, durable: nat)
    | OtherCall(call: Call)
    | Restart
  {
    predicate Valid() {
      (BoundMutate? ==> keyring.Valid()) && (OtherCall? ==> call.Valid())
    }
  }

  /** A journal record that was appended under an expectation, by its index. */
  datatype Landing = Landing(e: Expectation, index: nat)

  function ApplyStep(b: Bound, cfg: Config, step: Step): Bound
    requires step.Valid()
  {
    match step
    case Begin(thread, e) => if Expect(b, thread, e).Ok? then Expect(b, thread, e).value else b
    case End(thread) => Release(b, thread)
    case BoundMutate(thread, keyring, op, now, durable) => MutateBound(b, thread, cfg, keyring, op, now, durable).bound
    case OtherCall(call) => b.(system := Execute(b.system, cfg, call).system)
    case Restart => b.(pending := map[])
  }

  function LandingOf(b: Bound, cfg: Config, step: Step): seq<Landing>
    requires step.Valid()
  {
    if step.BoundMutate? && step.thread in b.pending
       && |ApplyStep(b, cfg, step).system.journal| > |b.system.journal|
    then [Landing(b.pending[step.thread], |b.system.journal|)] else []
  }

  predicate ValidSteps(steps: seq<Step>) {
    forall i | 0 <= i < |steps| :: steps[i].Valid()
  }

  function RunSteps(b: Bound, cfg: Config, steps: seq<Step>): Bound
    requires ValidSteps(steps)
  {
    if steps == [] then b
    else ApplyStep(RunSteps(b, cfg, steps[..|steps| - 1]), cfg, steps[|steps| - 1])
  }

  function Landings(b: Bound, cfg: Config, steps: seq<Step>): seq<Landing>
    requires ValidSteps(steps)
  {
    if steps == [] then []
    else
      var n := |steps| - 1;
      Landings(b, cfg, steps[..n]) + LandingOf(RunSteps(b, cfg, steps[..n]), cfg, steps[n])
  }

  /** Bound or not, a mutation does to the files what the protocol does, or nothing. */
  lemma BoundMutationIsMutation(
    b: Bound, thread: Name, cfg: Config, keyring: Keyring, op: Operation, now: Name, durable: nat)
    requires keyring.Valid()
    ensures var after := MutateBound(b, thread, cfg, keyring, op, now, durable).bound.system;
            after == b.system || after == Mutate(b.system, cfg, keyring, op, now, durable).system
  {
  }

  lemma CallOrNothingKeeps(sys: System, cfg: Config, call: Call, after: System)
    requires Coherent(sys, cfg) && call.Valid()
    requires after == sys || after == Execute(sys, cfg, call).system
    ensures Coherent(after, cfg) && Grows(after, sys)
  {
    ExecuteKeepsCoherent(sys, cfg, call);
  }

  lemma StepIsCallOrNothing(b: Bound, cfg: Config, step: Step) returns (call: Call)
    requires step.Valid()
    ensures call.Valid()
    ensures ApplyStep(b, cfg, step).system == b.system
            || ApplyStep(b, cfg, step).system == Execute(b.system, cfg, call).system
  {
    match step
    case BoundMutate(thread, keyring, op, now, durable) =>
      BoundMutationIsMutation(b, thread, cfg, keyring, op, now, durable);
      call := MutateCall(keyring, op, now, durable);
    case OtherCall(other) => call := other;
    case _ => call := VerifyCall(Keyring(map["" := ""], ""));
  }

  lemma ApplyStepKeeps(b: Bound, cfg: Config, step: Step)
    requires Coherent(b.system, cfg) && step.Valid()
    ensures Coherent(ApplyStep(b, cfg, step).system, cfg) && Grows(ApplyStep(b, cfg, step).system, b.system)
  {
    var call := StepIsCallOrNothing(b, cfg, step);
    CallOrNothingKeeps(b.system, cfg, call, ApplyStep(b, cfg, step).system);
  }

  /** The record at a landing's index was appended right after the expected checkpoint. */
  predicate Landed(journal: seq<Record>, landing: Landing) {
    && 1 <= landing.index < |journal|
    && landing.index == landing.e.sequence
    && Matches(landing.e, journal[landing.index - 1])
    && journal[landing.index].previous == journal[landing.index - 1].digest
    && journal[landing.index].body.fields.mutation == (if landing.e.ForPromotion? then Promoted else Staged)
  }

  lemma LandingLands(b: Bound, cfg: Config, step: Step)
    requires Coherent(b.system, cfg) && step.Valid()
    ensures forall l | l in LandingOf(b, cfg, step) ::
              l.index == |b.system.journal| && Landed(ApplyStep(b, cfg, step).system.journal, l)
  {
    if LandingOf(b, cfg, step) != [] {
      var keyring, op, now, durable := step.keyring, step.op, step.now, step.durable;
      BoundMutationMeaning(b, step.thread, cfg, keyring, op, now, durable);
      MutationLands(b.system, cfg, keyring, op, now, durable, b.pending[step.thread]);
    }
  }

  /** A mutation that adds a record adds it right after the head that matched. */
  lemma MutationLands(sys: System, cfg: Config, keyring: Keyring, op: Operation, now: Name, durable: nat, e: Expectation)
    requires Coherent(sys, cfg) && keyring.Valid() && VerifyStore(sys, cfg, keyring).Ok?
    requires sys.journal != [] && Matches(e, Last(sys.journal)) && Suits(e, op)
    requires |Mutate(sys, cfg, keyring, op, now, durable).system.journal| > |sys.journal|
    ensures Landed(Mutate(sys, cfg, keyring, op, now, durable).system.journal, Landing(e, |sys.journal|))
  {
    if Commits(sys, op, now) {
      var store := MutateCommits(sys, cfg, keyring, op, now, durable);
      CommitEffect(sys, cfg, keyring, store, MutationOf(op), now, durable);
      RecordLands(sys, cfg, NextRecord(sys, cfg, keyring, store, MutationOf(op), now), op, e);
    } else {
      MutateWithoutEffect(sys, cfg, keyring, op, now, durable);
    }
  }

  lemma RecordLands(sys: System, cfg: Config, record: Record, op: Operation, e: Expectation)
    requires WellLinked(cfg, sys.journal) && sys.journal != [] && Matches(e, Last(sys.journal)) && Suits(e, op)
    requires record.previous == Head(sys.journal) && record.body.fields.mutation == MutationOf(op)
    ensures Landed(sys.journal + [record], Landing(e, |sys.journal|))
  {
  }

  ghost predicate LandingsInOrder(journal: seq<Record>, landings: seq<Landing>) {
    && (forall i | 0 <= i < |landings| :: Landed(journal, landings[i]))
    && (forall i, j | 0 <= i < j < |landings| :: landings[i].index < landings[j].index)
  }

  lemma {:induction false} RunStepsKeep(b: Bound, cfg: Config, steps: seq<Step>)
    requires Coherent(b.system, cfg) && ValidSteps(steps)
    ensures Coherent(RunSteps(b, cfg, steps).system, cfg)
    ensures Grows(RunSteps(b, cfg, steps).system, b.system)
    ensures LandingsInOrder(RunSteps(b, cfg, steps).system.journal, Landings(b, cfg, steps))
    ensures forall l | l in Landings(b, cfg, steps) :: |b.system.journal| <= l.index
  {
    if steps != [] {
      var n := |steps| - 1;
      var before := RunSteps(b, cfg, steps[..n]);
      RunStepsKeep(b, cfg, steps[..n]);
      ApplyStepKeeps(before, cfg, steps[n]);
      LandingLands(before, cfg, steps[n]);
      OrderExtends(before.system.journal, RunSteps(b, cfg, steps).system.journal, Landings(b, cfg, steps[..n]),
                   LandingOf(before, cfg, steps[n]));
    }
  }

  lemma OrderExtends(earlier: seq<Record>, later: seq<Record>, landings: seq<Landing>, newest: seq<Landing>)
    requires earlier <= later && LandingsInOrder(earlier, landings) && |newest| <= 1
    requires forall l | l in newest :: l.index == |earlier| && Landed(later, l)
    ensures LandingsInOrder(later, landings + newest)
  {
  }

  /**
    One-shot binding over whole runs. However threads, processes and crashes interleave, an
    expectation lands at most once, so all ceremonies prepared against one checkpoint, and all
    approvals of one proposal set, together add at most one record.
  */
  lemma ExpectationIsOneShot(b: Bound, cfg: Config, steps: seq<Step>, i: nat, j: nat)
    requires Coherent(b.system, cfg) && ValidSteps(steps)
    requires i < |Landings(b, cfg, steps)| && j < |Landings(b, cfg, steps)|
    requires Landings(b, cfg, steps)[i].e.sequence == Landings(b, cfg, steps)[j].e.sequence
    ensures i == j
  {
    RunStepsKeep(b, cfg, steps);
    var landings := Landings(b, cfg, steps);
    assert Landed(RunSteps(b, cfg, steps).system.journal, landings[i]);
    assert Landed(RunSteps(b, cfg, steps).system.journal, landings[j]);
  }

  /** What lands after a checkpoint was handed out lands exactly on top of that checkpoint. */
  lemma LandsOnPreparedCheckpoint(
    b: Bound, cfg: Config, keyring: Keyring, steps: seq<Step>, i: nat, checkpoint: Record)
    requires Coherent(b.system, cfg) && ValidSteps(steps)
    requires VerifyStore(b.system, cfg, keyring) == Ok(checkpoint)
    requires i < |Landings(b, cfg, steps)|
    requires Landings(b, cfg, steps)[i].e in {PromotionAgainst(checkpoint), StageAgainst(checkpoint)}
    ensures var journal := RunSteps(b, cfg, steps).system.journal;
            var index := Landings(b, cfg, steps)[i].index;
            && 1 <= index < |journal|
            && journal[index - 1] == checkpoint
            && journal[index].previous == checkpoint.digest
            && index == |b.system.journal|
  {
    VerifyStoreMeaning(b.system, cfg, keyring);
    RunStepsKeep(b, cfg, steps);
    var journal := RunSteps(b, cfg, steps).system.journal;
    assert Landed(journal, Landings(b, cfg, steps)[i]);
    assert journal[|b.system.journal| - 1] == b.system.journal[|b.system.journal| - 1];
  }

  /** A stale ceremony is refused before the store operation runs: nothing changes at all. */
  lemma StaleExpectationIsRefused(
    b: Bound, thread: Name, e: Expectation, cfg: Config, keyring: Keyring, op: Operation, now: Name, durable: nat)
    requires keyring.Valid() && thread !in b.pending
    requires b.system.journal == [] || !Matches(e, Last(b.system.journal)) || !Suits(e, op)
    ensures MutateUnder(b, thread, e, cfg, keyring, op, now, durable).bound == b
    ensures MutateUnder(b, thread, e, cfg, keyring, op, now, durable).outcome.Err?
  {
    var begun := Expect(b, thread, e).value;
    BoundMutationMeaning(begun, thread, cfg, keyring, op, now, durable);
    assert begun.pending - {thread} == b.pending;
  }
}
