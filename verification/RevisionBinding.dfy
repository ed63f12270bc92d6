/** The claim protocol's stage calls are steps of the expectation layer, so one-shot binding carries over to them. */
module RevisionBinding {
  import opened Names
  import opened Counting
  import opened LearningStore
  import opened Checkpoint
  import opened CheckpointLaws
  import opened CheckpointRuns
  import opened Expectations
  import opened ReceiptClaims

  lemma {:induction false} RunStepsContinue(b: Bound, cfg: Config, first: seq<Step>, rest: seq<Step>)
    requires ValidSteps(first) && ValidSteps(rest)
    ensures ValidSteps(first + rest)
    ensures RunSteps(b, cfg, first + rest) == RunSteps(RunSteps(b, cfg, first), cfg, rest)
  {
    if rest == [] {
      assert first + rest == first;
    } else {
      var n := |rest| - 1;
      RunStepsContinue(b, cfg, first, rest[..n]);
      assert (first + rest)[..|first + rest| - 1] == first + rest[..n];
    }
  }

  lemma OneStep(b: Bound, cfg: Config, step: Step)
    requires step.Valid()
    ensures RunSteps(b, cfg, [step]) == ApplyStep(b, cfg, step)
  {
    assert [step][..0] == [];
    assert RunSteps(b, cfg, []) == b;
  }

  lemma ThreeSteps(b: Bound, cfg: Config, x: Step, y: Step, z: Step)
    requires x.Valid() && y.Valid() && z.Valid()
    ensures RunSteps(b, cfg, [x, y, z]) == ApplyStep(ApplyStep(ApplyStep(b, cfg, x), cfg, y), cfg, z)
  {
    OneStep(b, cfg, x);
    OneStep(ApplyStep(b, cfg, x), cfg, y);
    OneStep(ApplyStep(ApplyStep(b, cfg, x), cfg, y), cfg, z);
    RunStepsContinue(b, cfg, [x], [y]);
    RunStepsContinue(b, cfg, [x] + [y], [z]);
    assert [x] + [y] + [z] == [x, y, z];
  }

  /** A revision's stage call is Begin, BoundMutate, End, or nothing when a slot is taken; a reflection's is BoundMutate. */
  function StageSteps(b: Bound, pid: Name, claim: Receipt, candidate: Candidate, keyring: Keyring, actor: Name, now: Name,
                      durable: nat): seq<Step>
  {
    var mutate := BoundMutate(pid, keyring, Stage(candidate, actor, "CANDIDATE_STAGED"), now, durable);
    if !claim.key.RevisionKey? then [mutate]
    else if pid in b.pending then []
    else [Begin(pid, claim.key.expected), mutate, End(pid)]
  }

  lemma StageIsSteps(w: World, pid: Name, cfg: Config, claim: Receipt, candidate: Candidate, keyring: Keyring, actor: Name,
                     now: Name, durable: nat)
    requires keyring.Valid()
    ensures var steps := StageSteps(w.bound, pid, claim, candidate, keyring, actor, now, durable);
            ValidSteps(steps) &&
            StageReply(w.bound, pid, cfg, claim.key, candidate, keyring, actor, now, durable).bound == RunSteps(w.bound, cfg, steps)
  {
    var mutate := BoundMutate(pid, keyring, Stage(candidate, actor, "CANDIDATE_STAGED"), now, durable);
    if !claim.key.RevisionKey? {
      OneStep(w.bound, cfg, mutate);
    } else if pid !in w.bound.pending {
      ThreeSteps(w.bound, cfg, Begin(pid, claim.key.expected), mutate, End(pid));
    }
  }

  /** What a move of the claim protocol does to the learner's files, as steps of the expectation layer. */
  function MoveSteps(w: World, move: Move): seq<Step> {
    match move
    case Elsewhere(step) => [step]
    case StageCandidate(pid, keyring, actor, now, durable) =>
      if pid in w.processes && w.processes[pid].Proposed?
      then StageSteps(w.bound, pid, w.processes[pid].claim, w.processes[pid].candidate, keyring, actor, now, durable)
      else []
    case _ => []
  }

  lemma MoveIsSteps(w: World, cfg: Config, move: Move)
    requires move.Valid()
    ensures ValidSteps(MoveSteps(w, move))
    ensures Apply(w, cfg, move).bound == RunSteps(w.bound, cfg, MoveSteps(w, move))
  {
    match move
    case Elsewhere(step) => OneStep(w.bound, cfg, step);
    case StageCandidate(pid, keyring, actor, now, durable) =>
      if pid in w.processes && w.processes[pid].Proposed? {
        StageIsSteps(w, pid, cfg, w.processes[pid].claim, w.processes[pid].candidate, keyring, actor, now, durable);
      }
    case _ =>
  }

  /** Whatever the coordinators do to the learner's files is a run of the expectation layer. */
  lemma {:induction false} RunMovesAreSteps(w: World, cfg: Config, moves: seq<Move>) returns (steps: seq<Step>)
    requires ValidMoves(moves)
    ensures ValidSteps(steps) && RunMoves(w, cfg, moves).bound == RunSteps(w.bound, cfg, steps)
  {
    if moves == [] {
      steps := [];
    } else {
      var n := |moves| - 1;
      var before := RunMoves(w, cfg, moves[..n]);
      var first := RunMovesAreSteps(w, cfg, moves[..n]);
      MoveIsSteps(before, cfg, moves[n]);
      RunStepsContinue(w.bound, cfg, first, MoveSteps(before, moves[n]));
      steps := first + MoveSteps(before, moves[n]);
    }
  }

  lemma MoveKeepsFiles(w: World, cfg: Config, move: Move)
    requires Coherent(w.bound.system, cfg) && move.Valid()
    ensures Coherent(Apply(w, cfg, move).bound.system, cfg)
    ensures w.bound.system.journal <= Apply(w, cfg, move).bound.system.journal
  {
    MoveIsSteps(w, cfg, move);
    RunStepsKeep(w.bound, cfg, MoveSteps(w, move));
  }

  lemma RunMovesKeepCoherent(w: World, cfg: Config, moves: seq<Move>)
    requires Coherent(w.bound.system, cfg) && ValidMoves(moves)
    ensures Coherent(RunMoves(w, cfg, moves).bound.system, cfg)
  {
    var steps := RunMovesAreSteps(w, cfg, moves);
    RunStepsKeep(w.bound, cfg, steps);
  }

  lemma OneMoreMove(w: World, cfg: Config, moves: seq<Move>)
    requires Coherent(w.bound.system, cfg) && ValidMoves(moves) && moves != []
    ensures RunMoves(w, cfg, moves[..|moves| - 1]).bound.system.journal <= RunMoves(w, cfg, moves).bound.system.journal
  {
    RunMovesKeepCoherent(w, cfg, moves[..|moves| - 1]);
    MoveKeepsFiles(RunMoves(w, cfg, moves[..|moves| - 1]), cfg, moves[|moves| - 1]);
  }

  /** The journals that a run passes through. */
  ghost function JournalsOf(w: World, cfg: Config, moves: seq<Move>): (journals: seq<seq<Record>>)
    requires ValidMoves(moves)
    ensures |journals| == |moves| + 1
    ensures forall i | 0 <= i <= |moves| :: journals[i] == RunMoves(w, cfg, moves[..i]).bound.system.journal
  {
    seq(|moves| + 1, i requires 0 <= i <= |moves| => RunMoves(w, cfg, moves[..i]).bound.system.journal)
  }

  lemma OneJournalGrows(w: World, cfg: Config, moves: seq<Move>, i: nat)
    requires Coherent(w.bound.system, cfg) && ValidMoves(moves) && i < |moves|
    ensures JournalsOf(w, cfg, moves)[i] <= JournalsOf(w, cfg, moves)[i + 1]
  {
    OneMoreMove(w, cfg, moves[..i + 1]);
    assert moves[..i + 1][..i] == moves[..i];
  }

  /** The journal only grows from one moment of a run to a later one. */
  lemma JournalGrows(w: World, cfg: Config, moves: seq<Move>, a: nat, b: nat)
    requires Coherent(w.bound.system, cfg) && ValidMoves(moves) && a <= b <= |moves|
    ensures JournalsOf(w, cfg, moves)[a] <= JournalsOf(w, cfg, moves)[b]
  {
    forall i | 0 <= i < |moves| ensures JournalsOf(w, cfg, moves)[i] <= JournalsOf(w, cfg, moves)[i + 1] {
      OneJournalGrows(w, cfg, moves, i);
    }
    PrefixesChain(JournalsOf(w, cfg, moves), a, b);
  }

  // ---------- One record per prepared checkpoint ----------

  /** A revision that was approved against `e` adds a record. */
  predicate AddsRevision(w: World, cfg: Config, move: Move, e: Expectation)
    requires move.Valid()
  {
    && move.StageCandidate? && move.pid in w.processes && w.processes[move.pid].Proposed?
    && w.processes[move.pid].claim.key.RevisionKey? && w.processes[move.pid].claim.key.expected == e
    && Apply(w, cfg, move).bound.system.journal != w.bound.system.journal
  }

  /** Its record goes right on top of the checkpoint that the approval names. */
  lemma RevisionLandsOnExpectedHead(w: World, cfg: Config, move: Move, e: Expectation)
    requires Coherent(w.bound.system, cfg) && move.Valid() && AddsRevision(w, cfg, move, e)
    ensures w.bound.system.journal != [] && Matches(e, Last(w.bound.system.journal))
    ensures |w.bound.system.journal| == e.sequence < |Apply(w, cfg, move).bound.system.journal|
  {
    var op := Stage(w.processes[move.pid].candidate, move.actor, "CANDIDATE_STAGED");
    RevisionIsStageUnder(w, cfg, move, e);
    StageUnderExpectation(w.bound, move.pid, e, cfg, move.keyring, op, move.now, move.durable);
    MoveKeepsFiles(w, cfg, move);
  }

  lemma RevisionIsStageUnder(w: World, cfg: Config, move: Move, e: Expectation)
    requires move.Valid() && AddsRevision(w, cfg, move, e)
    ensures var op := Stage(w.processes[move.pid].candidate, move.actor, "CANDIDATE_STAGED");
            Apply(w, cfg, move).bound ==
            MutateUnder(w.bound, move.pid, e, cfg, move.keyring, op, move.now, move.durable).bound
  {
  }

  lemma StageUnderExpectation(b: Bound, pid: Name, e: Expectation, cfg: Config, keyring: Keyring, op: Operation, now: Name,
                              durable: nat)
    requires keyring.Valid() && WellLinked(cfg, b.system.journal)
    requires MutateUnder(b, pid, e, cfg, keyring, op, now, durable).bound.system.journal != b.system.journal
    ensures b.system.journal != [] && Matches(e, Last(b.system.journal)) && |b.system.journal| == e.sequence
  {
    BoundMutationMeaning(b.(pending := b.pending[pid := e]), pid, cfg, keyring, op, now, durable);
  }

  /**
    All revisions approved against one checkpoint together add at most one record, however the
    coordinators, the operators and their crashes interleave.
  */
  lemma RevisionsAddOneRecord(w: World, cfg: Config, moves: seq<Move>, i: nat, j: nat, e: Expectation, f: Expectation)
    requires Coherent(w.bound.system, cfg) && ValidMoves(moves) && i < j < |moves|
    requires AddsRevision(RunMoves(w, cfg, moves[..i]), cfg, moves[i], e)
    requires AddsRevision(RunMoves(w, cfg, moves[..j]), cfg, moves[j], f)
    ensures e.sequence != f.sequence
  {
    var first, second := RunMoves(w, cfg, moves[..i]), RunMoves(w, cfg, moves[..j]);
    RunMovesKeepCoherent(w, cfg, moves[..i]);
    RunMovesKeepCoherent(w, cfg, moves[..j]);
    RevisionLandsOnExpectedHead(first, cfg, moves[i], e);
    RevisionLandsOnExpectedHead(second, cfg, moves[j], f);
    MoveThenLater(w, cfg, moves, i, j);
  }

  lemma MoveThenLater(w: World, cfg: Config, moves: seq<Move>, i: nat, j: nat)
    requires Coherent(w.bound.system, cfg) && ValidMoves(moves) && i < j <= |moves|
    ensures Apply(RunMoves(w, cfg, moves[..i]), cfg, moves[i]).bound.system.journal
            <= RunMoves(w, cfg, moves[..j]).bound.system.journal
  {
    JournalGrows(w, cfg, moves, i + 1, j);
    assert moves[..i + 1][..i] == moves[..i];
  }
}
