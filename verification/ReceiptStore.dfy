/** The receipt store and one coordinator as they run, proved to behave as the claim protocol's moves. */
module ReceiptStore {
  import opened Names
  import W = Wrappers
  import opened LearningStore
  import opened Checkpoint
  import opened CheckpointLaws
  import opened CheckpointAuthority
  import opened Expectations
  import opened BoundAuthority
  import opened ReceiptClaims

  datatype ReceiptError =
    | ReceiptInvalid | AlreadyCompleted | ClaimRecoveryRequired | ConcurrentReceiptChange
    | WorkerFailed | CandidateRejected(reason: Name) | StageRefused(cause: CheckpointError)

  type Outcome<T> = W.Result<T, ReceiptError>

  class ReceiptStore {
    var files: map<Key, File>

    constructor (files: map<Key, File>)
      ensures this.files == files
    {
      this.files := files;
    }

    method Read(key: Key) returns (r: Outcome<W.Option<Receipt>>)
      ensures key !in files <==> r == W.Ok(W.None)
      ensures r.Ok? && r.value.Some? <==> key in files && files[key].Stored?
      ensures r.Ok? && r.value.Some? ==> files[key] == Stored(r.value.value)
      ensures r.Err? ==> r.error == ReceiptInvalid
    {
      if key !in files {
        return W.Ok(W.None);
      }
      match files[key] {
        case Torn => r := W.Err(ReceiptInvalid);
        case Stored(receipt) => r := W.Ok(W.Some(receipt));
      }
    }

    /** Exclusive creation, then the claim; an existing file is only read, to say why. */
    method Claim(key: Key, binding: Name, now: Name) returns (r: Outcome<Receipt>)
      modifies this
      ensures r.Ok? <==> key !in old(files)
      ensures r.Ok? ==>
                && r.value == Receipt(key, binding, ClaimedStatus, W.None, W.None, [], now, now)
                && files == old(files)[key := Stored(r.value)]
      ensures r.Err? ==> files == old(files)
      ensures r == W.Err(AlreadyCompleted) <==>
                key in old(files) && old(files)[key].Stored? && old(files)[key].receipt.status.CompletedStatus?
    {
      if key in files {
        var existing :- Read(key);
        return W.Err(if existing.Some? && existing.value.status.CompletedStatus? then AlreadyCompleted
                     else ClaimRecoveryRequired);
      }
      var receipt := Receipt(key, binding, ClaimedStatus, W.None, W.None, [], now, now);
      files := files[key := Torn];
      files := files[key := Stored(receipt)];
      r := W.Ok(receipt);
    }

    /** Replace the very claim that was made by its completion. */
    method Complete(claim: Receipt, final: Receipt) returns (r: Outcome<Receipt>)
      modifies this
      ensures r.Ok? <==> claim.key in old(files) && old(files)[claim.key] == Stored(claim) && claim.status.ClaimedStatus?
      ensures r.Ok? ==> r.value == final && files == old(files)[claim.key := Stored(final)]
      ensures r.Err? ==> files == old(files)
    {
      var current :- Read(claim.key);
      if current.None? || current.value != claim || !current.value.status.ClaimedStatus? {
        return W.Err(ConcurrentReceiptChange);
      }
      files := files[claim.key := Stored(final)];
      r := W.Ok(final);
    }
  }

  /** The world in which one process is about to start on one key. */
  ghost function Alone(bound: Bound, files: map<Key, File>, pid: Name, key: Key): World {
    World(bound, files, map[pid := Ready(key)], [])
  }

  lemma RunMovesSnoc(w: World, cfg: Config, moves: seq<Move>, move: Move)
    requires ValidMoves(moves) && move.Valid()
    ensures ValidMoves(moves + [move])
    ensures RunMoves(w, cfg, moves + [move]) == Apply(RunMoves(w, cfg, moves), cfg, move)
  {
  }

  function ClaimOf(key: Key, binding: Name, now: Name): Receipt {
    Receipt(key, binding, ClaimedStatus, W.None, W.None, [], now, now)
  }

  function Opening(pid: Name, binding: Name, answer: W.Option<Answer>, now: Name): seq<Move> {
    [CreateFile(pid), WriteClaim(pid, binding, now), RunWorker(pid, answer, now)]
  }

  /** Where a process stands once its worker has answered. */
  function AfterWorker(claim: Receipt, answer: W.Option<Answer>, now: Name): Pc {
    match answer
    case None => Stopped
    case Some(Nothing) => Settled(claim, Complete(claim, NoValue, W.None, [NothingReason(claim.key)], now))
    case Some(Refused(reason)) => Settled(claim, Complete(claim, RejectedResult, W.None, [reason], now))
    case Some(Proposal(candidate)) => Proposed(claim, candidate)
  }

  lemma OpeningRuns(bound: Bound, files: map<Key, File>, pid: Name, key: Key, binding: Name, answer: W.Option<Answer>,
                    now: Name, cfg: Config)
    requires key !in files
    ensures var claim := ClaimOf(key, binding, now);
            RunMoves(Alone(bound, files, pid, key), cfg, Opening(pid, binding, answer, now)) ==
            World(bound, files[key := Stored(claim)], map[pid := AfterWorker(claim, answer, now)], [WorkerRan(key)])
  {
    var start, claim := Alone(bound, files, pid, key), ClaimOf(key, binding, now);
    var two := [CreateFile(pid), WriteClaim(pid, binding, now)];
    assert two + [RunWorker(pid, answer, now)] == Opening(pid, binding, answer, now);
    ClaimRuns(bound, files, pid, key, binding, now, cfg);
    RunMovesSnoc(start, cfg, two, RunWorker(pid, answer, now));
    WorkerRuns(bound, files[key := Stored(claim)], pid, claim, answer, now, cfg);
  }

  lemma ClaimRuns(bound: Bound, files: map<Key, File>, pid: Name, key: Key, binding: Name, now: Name, cfg: Config)
    requires key !in files
    ensures var claim := ClaimOf(key, binding, now);
            RunMoves(Alone(bound, files, pid, key), cfg, [CreateFile(pid), WriteClaim(pid, binding, now)]) ==
            World(bound, files[key := Stored(claim)], map[pid := Claimed(claim)], [])
  {
    CreationRuns(bound, files, pid, key, cfg);
    RunMovesSnoc(Alone(bound, files, pid, key), cfg, [CreateFile(pid)], WriteClaim(pid, binding, now));
    assert [CreateFile(pid)] + [WriteClaim(pid, binding, now)] == [CreateFile(pid), WriteClaim(pid, binding, now)];
    WritingRuns(bound, files[key := Torn], pid, key, binding, now, cfg);
    assert files[key := Torn][key := Stored(ClaimOf(key, binding, now))] == files[key := Stored(ClaimOf(key, binding, now))];
  }

  lemma CreationRuns(bound: Bound, files: map<Key, File>, pid: Name, key: Key, cfg: Config)
    requires key !in files
    ensures RunMoves(Alone(bound, files, pid, key), cfg, [CreateFile(pid)]) ==
            World(bound, files[key := Torn], map[pid := Created(key)], [])
  {
    RunMovesSnoc(Alone(bound, files, pid, key), cfg, [], CreateFile(pid));
    assert [] + [CreateFile(pid)] == [CreateFile(pid)];
  }

  lemma WritingRuns(bound: Bound, files: map<Key, File>, pid: Name, key: Key, binding: Name, now: Name, cfg: Config)
    ensures var claim := ClaimOf(key, binding, now);
            Apply(World(bound, files, map[pid := Created(key)], []), cfg, WriteClaim(pid, binding, now)) ==
            World(bound, files[key := Stored(claim)], map[pid := Claimed(claim)], [])
  {
  }

  lemma WorkerRuns(bound: Bound, files: map<Key, File>, pid: Name, claim: Receipt, answer: W.Option<Answer>, now: Name,
                   cfg: Config)
    ensures Apply(World(bound, files, map[pid := Claimed(claim)], []), cfg, RunWorker(pid, answer, now)) ==
            World(bound, files, map[pid := AfterWorker(claim, answer, now)], [WorkerRan(claim.key)])
  {
  }

  lemma RefusalRuns(bound: Bound, files: map<Key, File>, pid: Name, key: Key, cfg: Config)
    requires key in files
    ensures RunMoves(Alone(bound, files, pid, key), cfg, [CreateFile(pid)]) == World(bound, files, map[pid := Stopped], [])
  {
  }

  /** The last two moves of a process that has settled. */
  lemma SettledRuns(start: World, cfg: Config, pid: Name, moves: seq<Move>, claim: Receipt, final: Receipt)
    returns (all: seq<Move>)
    requires ValidMoves(moves)
    requires var w := RunMoves(start, cfg, moves);
             && pid in w.processes && w.processes[pid] == Settled(claim, final)
             && claim.key in w.files && w.files[claim.key] == Stored(claim) && claim.status.ClaimedStatus?
    ensures ValidMoves(all)
    ensures var w, end := RunMoves(start, cfg, moves), RunMoves(start, cfg, all);
            end.files == w.files[claim.key := Stored(final)] && end.bound == w.bound
  {
    RunMovesSnoc(start, cfg, moves, CheckReceipt(pid));
    RunMovesSnoc(start, cfg, moves + [CheckReceipt(pid)], ReplaceReceipt(pid));
    all := moves + [CheckReceipt(pid)] + [ReplaceReceipt(pid)];
  }

  /** The stage move of a process with a candidate. */
  lemma StageRuns(start: World, cfg: Config, pid: Name, moves: seq<Move>, claim: Receipt, candidate: Candidate,
                  keyring: Keyring, actor: Name, now: Name, durable: nat)
    returns (all: seq<Move>)
    requires ValidMoves(moves) && keyring.Valid()
    requires pid in RunMoves(start, cfg, moves).processes
    requires RunMoves(start, cfg, moves).processes[pid] == Proposed(claim, candidate)
    ensures ValidMoves(all)
    ensures var w, end := RunMoves(start, cfg, moves), RunMoves(start, cfg, all);
            var reply := StageReply(w.bound, pid, cfg, claim.key, candidate, keyring, actor, now, durable);
            && end.files == w.files && end.bound == reply.bound && pid in end.processes
            && (reply.outcome.Ok? ==>
                  end.processes[pid] ==
                  Settled(claim, Complete(claim, StagedResult, W.Some(CandidateSha(candidate)), [], now)))
  {
    RunMovesSnoc(start, cfg, moves, StageCandidate(pid, keyring, actor, now, durable));
    all := moves + [StageCandidate(pid, keyring, actor, now, durable)];
  }

  /**
    What staging comes to: the learner's files are those of the checkpointed stage call, and the
    receipt is completed with the candidate exactly when that call succeeds. Else the claim stays.
  */
  predicate StageHandled(
    before: Bound, after: Bound, claim: Receipt, filed: Receipt, r: Outcome<Receipt>, pid: Name, candidate: Candidate,
    cfg: Config, keyring: Keyring, actor: Name, now: Name, durable: nat)
    requires keyring.Valid()
  {
    var call := StageReply(before, pid, cfg, claim.key, candidate, keyring, actor, now, durable);
    && after == call.bound
    && match call.outcome
       case Err(error) => r == W.Err(StageRefused(error)) && filed == claim
       case Ok(_) =>
         && r == W.Ok(filed)
         && filed == Receipt(claim.key, claim.binding, CompletedStatus, W.Some(StagedResult),
                             W.Some(CandidateSha(candidate)), [], claim.createdAt, now)
  }

  /** What a fresh key comes to, for each answer of its worker. Only a proposal reaches the learner's files. */
  predicate Handled(
    before: Bound, after: Bound, claim: Receipt, filed: Receipt, r: Outcome<Receipt>, pid: Name,
    answer: W.Option<Answer>, cfg: Config, keyring: Keyring, actor: Name, now: Name, durable: nat)
    requires keyring.Valid()
  {
    match answer
    case None => r == W.Err(WorkerFailed) && filed == claim && after == before
    case Some(Nothing) =>
      && r == W.Ok(filed) && after == before
      && filed == Receipt(claim.key, claim.binding, CompletedStatus, W.Some(NoValue), W.None, [NothingReason(claim.key)],
                          claim.createdAt, now)
    case Some(Refused(reason)) =>
      && r == W.Err(CandidateRejected(reason)) && after == before
      && filed == Receipt(claim.key, claim.binding, CompletedStatus, W.Some(RejectedResult), W.None, [reason],
                          claim.createdAt, now)
    case Some(Proposal(candidate)) =>
      StageHandled(before, after, claim, filed, r, pid, candidate, cfg, keyring, actor, now, durable)
  }

  /** A proposal that is reported as done is in the store, as staged. */
  lemma DoneMeansStaged(
    before: Bound, after: Bound, claim: Receipt, filed: Receipt, r: Outcome<Receipt>, pid: Name, candidate: Candidate,
    cfg: Config, keyring: Keyring, actor: Name, now: Name, durable: nat)
    requires keyring.Valid() && Coherent(before.system, cfg) && r.Ok?
    requires StageHandled(before, after, claim, filed, r, pid, candidate, cfg, keyring, actor, now, durable)
    ensures WasStaged(after.system.store, CandidateSha(candidate))
  {
    StageReplyKeeps(before, pid, cfg, claim.key, candidate, keyring, actor, now, durable);
  }

  class Coordinator {
    const receipts: ReceiptStore
    const authority: BoundCheckpointAuthority
    const store: StoreTables

    constructor (receipts: ReceiptStore, authority: BoundCheckpointAuthority, store: StoreTables)
      ensures this.receipts == receipts && this.authority == authority && this.store == store
    {
      this.receipts, this.authority, this.store := receipts, authority, store;
    }

    ghost predicate Valid()
      reads authority, authority.base
    {
      authority.Valid()
    }

    /** The files are as after these moves of one process. */
    ghost predicate Reached(start: World, moves: seq<Move>)
      reads receipts, authority, authority.base, store
    {
      && ValidMoves(moves)
      && RunMoves(start, authority.base.cfg, moves).files == receipts.files
      && RunMoves(start, authority.base.cfg, moves).bound == authority.View(store)
    }

    ghost predicate StandsAt(start: World, moves: seq<Move>, pid: Name, pc: Pc)
      reads receipts, authority, authority.base, store
    {
      && Reached(start, moves)
      && pid in RunMoves(start, authority.base.cfg, moves).processes
      && RunMoves(start, authority.base.cfg, moves).processes[pid] == pc
    }

    /** The stage call, bound to the approval's checkpoint for a revision. */
    method Stage(pid: Name, key: Key, candidate: Candidate, actor: Name, now: Name, durable: nat)
      returns (r: Verdict<Record>)
      requires Valid()
      modifies authority, authority.base, store
      ensures BoundReply(authority.View(store), r) ==
              StageReply(old(authority.View(store)), pid, authority.base.cfg, key, candidate, authority.base.keyring,
                         actor, now, durable)
    {
      var op := LearningStore.Stage(candidate, actor, "CANDIDATE_STAGED");
      if key.RevisionKey? {
        r := authority.MutateUnder(store, pid, key.expected, op, now, durable);
      } else {
        r := authority.Mutate(store, pid, op, now, durable);
      }
    }

    /** Complete a settled claim. */
    method Settle(pid: Name, claim: Receipt, final: Receipt, ghost start: World, ghost moves: seq<Move>)
      returns (r: Outcome<Receipt>, ghost all: seq<Move>)
      requires StandsAt(start, moves, pid, Settled(claim, final))
      requires claim.status.ClaimedStatus? && claim.key in receipts.files && receipts.files[claim.key] == Stored(claim)
      modifies receipts
      ensures Reached(start, all)
      ensures r == W.Ok(final) && receipts.files == old(receipts.files)[claim.key := Stored(final)]
    {
      r := receipts.Complete(claim, final);
      all := SettledRuns(start, authority.base.cfg, pid, moves, claim, final);
    }

    /** Stage the worker's candidate and, if that succeeds, complete the claim with it. */
    method StageAndSettle(pid: Name, claim: Receipt, candidate: Candidate, actor: Name, now: Name, durable: nat,
                          ghost start: World, ghost moves: seq<Move>)
      returns (r: Outcome<Receipt>, ghost all: seq<Move>)
      requires Valid() && StandsAt(start, moves, pid, Proposed(claim, candidate))
      requires claim.status.ClaimedStatus? && claim.key in receipts.files && receipts.files[claim.key] == Stored(claim)
      modifies receipts, authority, authority.base, store
      ensures Reached(start, all)
      ensures receipts.files.Keys == old(receipts.files).Keys && receipts.files[claim.key].Stored?
      ensures receipts.files == old(receipts.files)[claim.key := receipts.files[claim.key]]
      ensures StageHandled(old(authority.View(store)), authority.View(store), claim, receipts.files[claim.key].receipt,
                           r, pid, candidate, authority.base.cfg, authority.base.keyring, actor, now, durable)
    {
      var staged := Stage(pid, claim.key, candidate, actor, now, durable);
      all := StageRuns(start, authority.base.cfg, pid, moves, claim, candidate, authority.base.keyring, actor, now, durable);
      if staged.Err? {
        return W.Err(StageRefused(staged.error)), all;
      }
      var final := ReceiptClaims.Complete(claim, StagedResult, W.Some(CandidateSha(candidate)), [], now);
      r, all := Settle(pid, claim, final, start, all);
    }

    /**
      Claim, run the worker, stage, complete. `answer` is what the worker, and the checks of its
      candidate, came to. The files end as after some moves of the protocol.
    */
    method Process(pid: Name, key: Key, binding: Name, answer: W.Option<Answer>, actor: Name, now: Name, durable: nat)
      returns (r: Outcome<Receipt>, ghost moves: seq<Move>)
      requires Valid()
      modifies receipts, authority, authority.base, store
      ensures Reached(old(Alone(authority.View(store), receipts.files, pid, key)), moves)
      ensures key in old(receipts.files) ==>
                r.Err? && receipts.files == old(receipts.files) && authority.View(store) == old(authority.View(store))
      ensures r == W.Err(AlreadyCompleted) <==> key in old(receipts.files) && old(receipts.files)[key].Stored?
                                                && old(receipts.files)[key].receipt.status.CompletedStatus?
      ensures key !in old(receipts.files) ==>
                && key in receipts.files && receipts.files[key].Stored?
                && receipts.files == old(receipts.files)[key := receipts.files[key]]
                && Handled(old(authority.View(store)), authority.View(store), ClaimOf(key, binding, now),
                           receipts.files[key].receipt, r, pid, answer, authority.base.cfg, authority.base.keyring,
                           actor, now, durable)
      ensures r.Ok? && answer.value.Proposal? && Coherent(old(authority.View(store)).system, authority.base.cfg) ==>
                WasStaged(authority.View(store).system.store, CandidateSha(answer.value.candidate))
    {
      ghost var before := authority.View(store);
      if key in receipts.files {
        RefusalRuns(authority.View(store), receipts.files, pid, key, authority.base.cfg);
        moves := [CreateFile(pid)];
        var refused := receipts.Claim(key, binding, now);
        return W.Err(refused.error), moves;
      }
      r, moves := ProcessFresh(pid, key, binding, answer, actor, now, durable);
      if r.Ok? && answer.value.Proposal? && Coherent(before.system, authority.base.cfg) {
        DoneMeansStaged(before, authority.View(store), ClaimOf(key, binding, now), receipts.files[key].receipt, r, pid,
                        answer.value.candidate, authority.base.cfg, authority.base.keyring, actor, now, durable);
      }
    }

    /** Claim a fresh key and hear the worker's answer. */
    method Begin(pid: Name, key: Key, binding: Name, answer: W.Option<Answer>, now: Name)
      returns (claim: Receipt, ghost moves: seq<Move>)
      requires key !in receipts.files
      modifies receipts
      ensures claim == ClaimOf(key, binding, now) && receipts.files == old(receipts.files)[key := Stored(claim)]
      ensures StandsAt(old(Alone(authority.View(store), receipts.files, pid, key)), moves, pid, AfterWorker(claim, answer, now))
    {
      OpeningRuns(authority.View(store), receipts.files, pid, key, binding, answer, now, authority.base.cfg);
      var claimed := receipts.Claim(key, binding, now);
      claim := claimed.value;
      moves := Opening(pid, binding, answer, now);
    }

    /** The same for a key that nobody has claimed yet. */
    method ProcessFresh(pid: Name, key: Key, binding: Name, answer: W.Option<Answer>, actor: Name, now: Name, durable: nat)
      returns (r: Outcome<Receipt>, ghost moves: seq<Move>)
      requires Valid() && key !in receipts.files
      modifies receipts, authority, authority.base, store
      ensures Reached(old(Alone(authority.View(store), receipts.files, pid, key)), moves)
      ensures key in receipts.files && receipts.files[key].Stored?
      ensures receipts.files == old(receipts.files)[key := receipts.files[key]]
      ensures Handled(old(authority.View(store)), authority.View(store), ClaimOf(key, binding, now),
                      receipts.files[key].receipt, r, pid, answer, authority.base.cfg, authority.base.keyring, actor, now,
                      durable)
    {
      ghost var start, view := Alone(authority.View(store), receipts.files, pid, key), authority.View(store);
      var claim;
      claim, moves := Begin(pid, key, binding, answer, now);
      assert authority.View(store) == view;
      r, moves := Finish(pid, claim, answer, actor, now, durable, start, moves);
    }

    /** Act on the worker's answer. */
    method Finish(pid: Name, claim: Receipt, answer: W.Option<Answer>, actor: Name, now: Name, durable: nat,
                  ghost start: World, ghost moves: seq<Move>)
      returns (r: Outcome<Receipt>, ghost all: seq<Move>)
      requires Valid() && StandsAt(start, moves, pid, AfterWorker(claim, answer, now))
      requires claim.status.ClaimedStatus? && claim.key in receipts.files && receipts.files[claim.key] == Stored(claim)
      modifies receipts, authority, authority.base, store
      ensures Reached(start, all)
      ensures receipts.files.Keys == old(receipts.files).Keys && receipts.files[claim.key].Stored?
      ensures receipts.files == old(receipts.files)[claim.key := receipts.files[claim.key]]
      ensures Handled(old(authority.View(store)), authority.View(store), claim, receipts.files[claim.key].receipt, r, pid,
                      answer, authority.base.cfg, authority.base.keyring, actor, now, durable)
    {
      match answer {
        case None =>
          r, all := W.Err(WorkerFailed), moves;
        case Some(Nothing) =>
          r, all := Settle(pid, claim, ReceiptClaims.Complete(claim, NoValue, W.None, [NothingReason(claim.key)], now), start, moves);
        case Some(Refused(reason)) =>
          var recorded;
          recorded, all :=
            Settle(pid, claim, ReceiptClaims.Complete(claim, RejectedResult, W.None, [reason], now), start, moves);
          r := W.Err(CandidateRejected(reason));
        case Some(Proposal(candidate)) =>
          r, all := StageAndSettle(pid, claim, candidate, actor, now, durable, start, moves);
      }
    }
  }
}
