# Verification of the adaptive-learning control plane

A Dafny model of how this repository learns under supervision, and proofs of what its
protocols and pipelines promise. `dafny verify dfyconfig.toml` checks the project.

The model follows the program's modules:

- **Learning store** (`LearningStore`, `StoreLaws`): immutable version rows and a hash-chained
  ledger; the active version is derived, never stored.
- **Authenticated checkpoints** (`Checkpoint`, `CheckpointLaws`, `CheckpointRuns`,
  `CheckpointOutcomes`, `CheckpointAuthority`): a store, a journal and a head witness are written in that order by
  processes that may die between any two writes. The protocol is a function on values; the
  authority is a class that changes its files in place and is proved to refine it.
- **Expectations** (`Expectations`, `BoundAuthority`): promotion ceremonies and curation approvals
  name the checkpoint they were prepared against; the name is consumed under the mutation lock.
- **Claim-once receipts** (`ReceiptClaims`, `RevisionBinding`, `ReceiptStore`): coordinators claim,
  run a worker, stage and complete, interleaved and killed anywhere; what they do to the learner's
  files is a run of the expectation layer.
- **Contradiction index** (`Contradictions`, `ContradictionLaws`, `ContradictionRuns`, `RecordLaws`,
  `ContradictionIndex`): an append-only table under compare-and-swap, its one-pass checker and its
  statistics.
- **Effectiveness, curation and maintenance** (`Effectiveness`, `EffectivenessMeaning`,
  `EffectivenessAnalyzer`, `EffectivenessLaws`, `EffectivenessRates`, `Curation`, `CurationCompiler`,
  `CurationLaws`, `CurationMeaning`, `RevisionMetrics`, `Maintenance`): counters computed by nested loops, compiled against the
  active store, and turned into a receipt.
- **Evidence diversity** (`EvidenceDiversity`, `EvidenceLineage`), **governance receipts** (`GovernanceLanes`,
  `GovernanceAttempts`, `GovernanceLaws`, `GovernanceDeadEnds`) and **ranking metrics** (`Ranking`).
- `Names`, `HashChain`, `Counting`, `Ordering`, `Steadiness` and `Wrappers` are shared by these.

How the model is made:

- Digests and message authentication codes are symbolic: a digest is a term that holds what was
  hashed, so it is collision-free by construction and no axiom is needed.
- A crash is the number of writes of one call that reach the disk (`durable`). The lock makes
  calls atomic with respect to each other, so a run is a sequence of calls, each by a process with
  its own keyring, each possibly cut short.
- The 16 MiB limit of the journal is kept: a journal that outgrows it refuses every call.
- Reading code that looks at the store several times (the compiler, a maintenance tick) is given
  one system state per look, `views`. It may rely on `Steady`, which `RunsAreSteady` proves of
  every run: equal checkpoints enclose an unchanged store.
- A knowledge candidate appears in two views: `LearningStore.Candidate` keeps what the store's
  identities and bindings depend on, `EvidenceDiversity.Candidate` keeps the eight lineage lists that
  the evaluator compares. No statement relates the two.
- Time stamps are opaque values; where the program compares two of them, their instants are
  compared.

Three places where the code does something a reader might not expect, each with its exact condition
and with inputs that show it:

- The contradiction checker passes tables in which a contradiction is opened more than once
  (`ReopenedTablePassesChecker`). It demands one `open` followed by at most one terminal event
  exactly when, in addition, no open row follows a row of the same contradiction
  (`StrictExactlyWithoutReopening`). Tables written by `record` never contain such rows
  (`EveryRunVerifies`).
- A lane of attempts can reach a dead end: after `threshold` failures a failed
  `targeted_instrumentation` attempt without logs asks its successor both to keep and to leave that
  family; and a failed attempt whose id has surrounding white space cannot be referred to, because
  the reference is trimmed and the id is not. Under every policy that allows failures with and
  without logs, accepted lists end in either kind (`FamilyDeadEnd`, `IdDeadEnd`);
  `ContinuableUnlessDeadEnd` shows that these are the only two.
- Compiling refuses a snapshot that holds two versions of one item, even when both are sound
  (`RivalVersionsBlockCompilation`); the analyzer does produce such snapshots
  (`RivalVersionsOccur`).

## Model

| member | source | states |
|---|---|---|
| `HashChain.HeadDeterminesChain` | src/three_agent/adaptive_learning_checkpoint.py:544-555 | with collision-free digests two intact chains with the same head are equal row by row; used for the journal, the store ledger and the contradiction table |
| `HashChain.HeadsNeverRepeat` | src/three_agent/adaptive_learning_contradictions.py:661-670 | while a chain grows no head digest is ever seen twice, so a compare-and-swap on the head cannot succeed on an older state |
| `LearningStore.LastWhere` | src/three_agent/adaptive_learning_store.py:237-259 | a newest-row query returns a row that satisfies the condition and is followed by none that does, and nothing exactly if no row satisfies it |
| `LearningStore.ActiveRowNeverFails` | src/three_agent/adaptive_learning_store.py:237-275 | in every intact store the derivation of the active version from the ledger never ends in an integrity error |
| `LearningStore.PerformKeepsValid` | src/three_agent/adaptive_learning_store.py:448-714 | every accepted stage, promote, archive and rollback keeps the store intact and only ever appends to both tables; which calls are accepted, and what they make active, is in `StoreLaws` |
| `StoreLaws.StageMeaning` | src/three_agent/adaptive_learning_store.py:448-519 | a stage of a new candidate goes through exactly when the candidate is valid and learner-managed and the create, target and base conditions hold against what is active; a known one exactly when it is the same candidate, and then changes nothing |
| `StoreLaws.StageEffect` | src/three_agent/adaptive_learning_store.py:480-519 | a stage adds one inactive row of the lowest level and one entry that names the caller, and leaves what is active as it was |
| `StoreLaws.PromotionMeaning` | src/three_agent/adaptive_learning_store.py:521-577 | a promotion changes the store exactly when the gate allows it, the candidate stands one level below the target and has no row of the target level; it succeeds without a change exactly when that row is there with the same receipt |
| `StoreLaws.PromotionEffect` | src/three_agent/adaptive_learning_store.py:559-615 | the new row is active exactly for enterprise, or for approved over no active enterprise row; an active one is what is active from then on, and no other item changes |
| `StoreLaws.ArchiveMeaning` | src/three_agent/adaptive_learning_store.py:629-662 | an archive goes through exactly when the active knowledge is the expected one; then nothing is active for the item, and no other item changes |
| `StoreLaws.RollbackMeaning` | src/three_agent/adaptive_learning_store.py:664-714 | a rollback goes through exactly when the active knowledge is the one the caller names and the goal was once active; then the goal is active, and no other item changes |
| `StoreLaws.WasActiveMeaning` | src/three_agent/adaptive_learning_store.py:683-697 | knowledge was once active exactly when the item has an active snapshot row of it |
| `LearningStore.BindingIsStable` | src/three_agent/adaptive_learning_store.py:277-290 | once a candidate has a binding (its digest, item and knowledge digest) no later operation changes it |
| `CheckpointLaws.ScanMeaning` | src/three_agent/adaptive_learning_checkpoint.py:544-555 | the one-pass journal scan finds no fault exactly on gapless hash chains of records of this store |
| `CheckpointLaws.VerifyStoreMeaning` | src/three_agent/adaptive_learning_checkpoint.py:626-634 | verification succeeds exactly when journal, witness and store agree and the process holds the key that signed the head and the witness |
| `CheckpointLaws.VerifyJournalMeaning` | src/three_agent/adaptive_learning_checkpoint.py:538-572 | a non-empty journal is accepted exactly when it is well linked, readable, named by the witness and signed with a key the process trusts |
| `CheckpointLaws.WitnessDeterminesJournal` | src/three_agent/adaptive_learning_checkpoint.py:538-572 | two journals accepted under the same witness are equal, whatever stores and keyrings stand beside them |
| `CheckpointLaws.OtherGenerationsAreRefused` | src/three_agent/adaptive_learning_checkpoint.py:538-572 | any other generation of the journal, every proper prefix included, is refused under the current witness |
| `CheckpointLaws.CaptureDeterminesStore` | src/three_agent/adaptive_learning_checkpoint.py:342-411 | the captured state binds the whole of both tables |
| `CheckpointLaws.AppendRecordKeepsCoherent` | src/three_agent/adaptive_learning_checkpoint.py:578-624 | an append cut short after any number of durable writes leaves coherent files; uncut it makes journal, witness and store agree |
| `CheckpointLaws.OperationMatchesDeclaration` | src/three_agent/adaptive_learning_checkpoint.py:736-806 | the ledger and version deltas and the event type each coordinator call declares are exactly what the store operation commits |
| `CheckpointRuns.RunKeepsCoherent` | src/three_agent/adaptive_learning_checkpoint.py:636-724 | every run of bootstrap, verify, rotate and mutate calls by any processes, each possibly dying part-way, keeps the files coherent and only extends them |
| `CheckpointRuns.CrashSafety` | src/three_agent/adaptive_learning_checkpoint.py:578-724 | every reachable system is unbootstrapped and untouched, or verifies for some process, or answers every later call with an error and is changed by no later run |
| `CheckpointRuns.StuckIsAbsorbing` | src/three_agent/adaptive_learning_checkpoint.py:626-724 | a system whose files disagree, or whose journal outgrew the reader, stays exactly as it is under every run |
| `CheckpointRuns.HealthyVerifies` | src/three_agent/adaptive_learning_checkpoint.py:626-634 | a healthy system verifies for exactly the processes that hold the signing key under the head record key id |
| `CheckpointRuns.InterruptionOutcome` | src/three_agent/adaptive_learning_checkpoint.py:699-724 | exactly which interrupted mutations wedge a healthy system, in terms of the number of durable writes |
| `CheckpointOutcomes.BootstrapMeaning` | src/three_agent/adaptive_learning_checkpoint.py:636-648 | a first bootstrap appends record 1 over the present store under the active key and succeeds exactly if both its writes last and the journal stays readable; over a journal it is refused |
| `CheckpointOutcomes.RotationMeaning` | src/three_agent/adaptive_learning_checkpoint.py:654-667 | a rotation by a process that verifies the head changes nothing if the head is signed under the active key; otherwise it appends one record that signs the same store under the active key, with the outcome for every number of durable writes |
| `CheckpointOutcomes.MutationMeaning` | src/three_agent/adaptive_learning_checkpoint.py:669-724 | a mutation by a process that verifies the head is refused with the reason of the store, or returns the head if nothing changes, or commits exactly the result of the operation and authenticates it by one record of its kind, with the outcome for every number of durable writes |
| `CheckpointOutcomes.BytesAddUp` | src/three_agent/adaptive_learning_checkpoint.py:438-459 | the size that the reader limits is the sum of the lines, however the journal is cut |
| `CheckpointRuns.EveryCallOutcome` | src/three_agent/adaptive_learning_checkpoint.py:636-724 | after any call the files are coherent and were left untouched, verify, or refuse all later calls |
| `CheckpointRuns.UnbootstrappedIsUntouched` | src/three_agent/adaptive_learning_checkpoint.py:626-724 | before the bootstrap record exists nothing can be mutated through the authority |
| `CheckpointRuns.JournalAccounting` | src/three_agent/adaptive_learning_checkpoint.py:654-697 | for every reachable journal the head counts are the bootstrap counts plus one ledger entry per stage, promote, archive and rollback record and one version per stage and promote record |
| `CheckpointRuns.SameCheckpointFreezesStore` | src/three_agent/adaptive_learning_checkpoint.py:650-652 | two verifications that return the same checkpoint enclose no change of the store |
| `CheckpointAuthority.LearningCheckpointAuthority.VerifyJournal` | src/three_agent/adaptive_learning_checkpoint.py:538-572 | the loop over the journal returns what the protocol defines, fault by fault |
| `CheckpointAuthority.LearningCheckpointAuthority.Bootstrap` | src/three_agent/adaptive_learning_checkpoint.py:636-648 | changes journal and witness exactly as the protocol, for any number of durable writes |
| `CheckpointAuthority.LearningCheckpointAuthority.RotateKey` | src/three_agent/adaptive_learning_checkpoint.py:654-667 | changes journal and witness exactly as the protocol, for any number of durable writes |
| `CheckpointAuthority.LearningCheckpointAuthority.Advance` | src/three_agent/adaptive_learning_checkpoint.py:669-697 | authenticates the store after an operation, or refuses, exactly as the protocol |
| `CheckpointAuthority.LearningCheckpointAuthority.Mutate` | src/three_agent/adaptive_learning_checkpoint.py:699-724 | refines the protocol in place and leaves the files untouched, verifying, or refusing every later call |
| `Expectations.BoundMutationMeaning` | src/three_agent/adaptive_learning_promotion.py:168-186 | a mutation under a pending expectation changes files or succeeds only if the operation suits it and sequence, state digest and, for a stage, record digest of the head are those expected; it is then the plain mutation, and the expectation is consumed |
| `Expectations.PreparedExpectationMeaning` | src/three_agent/adaptive_learning_curation_revision.py:384-397 | an expectation prepared against a checkpoint is met by exactly the heads with its sequence and state digest and, for a stage, its record digest |
| `Expectations.CeremonyMeaning` | src/three_agent/adaptive_learning_curation_revision.py:352-397 | with a free slot and a suitable operation, begin, mutate and release are together the plain mutation if the verified head meets the expectation, and otherwise refuse and change nothing |
| `Expectations.FreshCeremonyIsPlainMutation` | src/three_agent/adaptive_learning_promotion.py:327-342 | what was prepared against the present head goes through exactly as the plain mutation does |
| `Expectations.RefusalNamesField` | src/three_agent/adaptive_learning_curation_revision.py:384-397 | a refused ceremony names the first of slot, kind, sequence, record digest and state digest that is wrong |
| `Expectations.ExpectationIsOneShot` | src/three_agent/adaptive_learning_promotion.py:150-186 | over whole runs of any threads and processes, expectations prepared against one checkpoint add at most one journal record |
| `Expectations.LandsOnPreparedCheckpoint` | src/three_agent/adaptive_learning_curation_revision.py:352-397 | a record that lands under an expectation has as its predecessor exactly the checkpoint the expectation was prepared against |
| `Expectations.StaleExpectationIsRefused` | src/three_agent/adaptive_learning_promotion.py:287-354 | a ceremony whose sequence, state digest or, for a stage, record digest is not that of the head is refused before the store operation and changes nothing |
| `BoundAuthority.BoundCheckpointAuthority.VerifyStore` | src/three_agent/adaptive_learning_promotion.py:174-186 | verification that consumes the pending expectation of the calling thread and then compares it, as the specification whose meaning is in `Expectations` |
| `BoundAuthority.BoundCheckpointAuthority.MutateUnder` | src/three_agent/adaptive_learning_curation_revision.py:352-397 | begin, mutate and release leave files and slots as the specification says, also when the body fails; `Expectations.CeremonyMeaning` says what that is |
| `ReceiptClaims.ClaimSafety` | src/three_agent/adaptive_learning_reflection.py:477-566 | under any interleaving of any number of coordinators, killed anywhere: per receipt key the worker runs at most once and stage is called at most once; a completed receipt means exactly one worker run of its own, a STAGED one exactly one stage call of its own and a candidate the store holds |
| `RevisionBinding.RunMovesAreSteps` | src/three_agent/adaptive_learning_curation_revision.py:874-915 | whatever the coordinators do to store, journal, witness and slots is a run of the expectation layer; a revision stage is begin, mutate, end |
| `RevisionBinding.RevisionLandsOnExpectedHead` | src/three_agent/adaptive_learning_curation_revision.py:906-911 | a revision that adds a record adds it on top of exactly the checkpoint its approval names, by sequence, state digest and record digest |
| `RevisionBinding.RevisionsAddOneRecord` | src/three_agent/adaptive_learning_curation_revision.py:352-397 | over whole runs, all revisions approved against one checkpoint together add at most one record |
| `ReceiptClaims.FileMovesForward` | src/three_agent/adaptive_learning_reflection.py:477-566 | no step moves a receipt file backwards or by more than one stage, and a file that stays in its stage stays the same |
| `ReceiptClaims.ReceiptsMoveForward` | src/three_agent/adaptive_learning_curation_revision.py:616-692 | over whole runs receipts only go from absent to created to claimed to completed |
| `ReceiptClaims.StagePerformed` | src/three_agent/adaptive_learning_reflection.py:673-708 | a stage call that reports success leaves the candidate row in the store |
| `ReceiptClaims.StageReplyMeaning` | src/three_agent/adaptive_learning_curation_revision.py:906-911 | without a pending slot a coordinator stages by the plain mutation, always for a reflection and for a revision exactly when the verified head is the approved checkpoint; else nothing changes |
| `ReceiptStore.ReceiptStore.Claim` | src/three_agent/adaptive_learning_reflection.py:477-517 | exclusive creation: succeeds exactly when the key has no file; otherwise changes nothing and says whether the work was completed |
| `ReceiptStore.ReceiptStore.Complete` | src/three_agent/adaptive_learning_reflection.py:519-566 | replaces exactly the claim that was made, and nothing else |
| `ReceiptStore.Coordinator.Process` | src/three_agent/adaptive_learning_curation_revision.py:874-924 | for a fresh key: a proposal leaves the files of the checkpointed stage call, succeeds exactly if that does, and then the receipt is completed with the candidate and the store holds its staged row; nothing and a refusal complete the receipt and leave the learner alone; no answer leaves the claim; a taken key changes nothing. Moves of the protocol reach the same files |
| `ContradictionLaws.CheckerMeaning` | src/three_agent/adaptive_learning_contradictions.py:526-592 | the one-pass checker reports nothing exactly when chain, numbering, rows and bindings are sound and every contradiction has open events followed by at most one terminal event, all with one transition identity |
| `ContradictionLaws.StrictExactlyWithoutReopening` | src/three_agent/adaptive_learning_contradictions.py:536-584 | a table the checker passes has the one-open-then-at-most-one-terminal shape exactly when no open row follows a row of the same contradiction |
| `ContradictionRuns.ReopenedTablePassesChecker` | src/three_agent/adaptive_learning_contradictions.py:548-565 | a table in which one contradiction is opened twice, which the checker passes |
| `ContradictionRuns.EveryRunVerifies` | src/three_agent/adaptive_learning_contradictions.py:619-825 | any run of record calls from the empty table, interleaved with learning-store operations, leaves a table on which the checker reports nothing and every candidate has at most 128 open contradictions |
| `ContradictionRuns.AtMostOneAppendPerHead` | src/three_agent/adaptive_learning_contradictions.py:661-670 | of all calls in a run that carry the same expected head at most one appends |
| `ContradictionRuns.StaleHeadAppendsNothing` | src/three_agent/adaptive_learning_contradictions.py:661-670 | a call with a stale expected head is refused and appends nothing |
| `ContradictionRuns.EventsAddUp` | src/three_agent/adaptive_learning_contradictions.py:894-962 | the number of events is the number of contradictions plus the number of closed ones |
| `ContradictionRuns.StatisticsConserveHistory` | src/three_agent/adaptive_learning_contradictions.py:894-962 | totals over all groups add up to the number of contradictions, and totals plus resolutions plus dismissals to the number of events |
| `ContradictionRuns.GroupPartition` | src/three_agent/adaptive_learning_contradictions.py:931-950 | open, resolved and dismissed partition the total of a group |
| `ContradictionRuns.OpenViewsAgree` | src/three_agent/adaptive_learning_contradictions.py:867-892 | the open list of a candidate has as many entries as the statistics count open for it |
| `ContradictionIndex.VerifyTable` | src/three_agent/adaptive_learning_contradictions.py:526-592 | the stateful loop returns the failures of the specification, in order, and the head |
| `ContradictionIndex.AdaptiveLearningContradictionIndex.Record` | src/three_agent/adaptive_learning_contradictions.py:619-825 | the call as it runs: checks in order, then append or replay; on a sound index it appends exactly the recordable events, returns them, and moves them in or out of the open set |
| `RecordLaws.AppendMeaning` | src/three_agent/adaptive_learning_contradictions.py:619-752 | on a sound index a call appends exactly when record, times and checkpoint are good, the head is current, the candidate is bound with the expected digest, there is room, and the contradiction is new, open and within the limit, or its newest event is open with the same identity and the record ends it |
| `RecordLaws.AppendedEvent` | src/three_agent/adaptive_learning_contradictions.py:754-825 | the appended event carries number, status, identity, times, actor, reason and checkpoint digest of this call, on top of the old head |
| `RecordLaws.AppendEffect` | src/three_agent/adaptive_learning_contradictions.py:602-617 | an opened contradiction enters the open set of its candidate, a closed one was in it and leaves it, and no other set changes |
| `RecordLaws.OpenForMeaning` | src/three_agent/adaptive_learning_contradictions.py:867-892 | a contradiction counts as open for a candidate exactly when its newest event is open and concerns that candidate |
| `RecordLaws.ReplayMeaning` | src/three_agent/adaptive_learning_contradictions.py:716-727 | an earlier event is returned exactly when it is the newest of its contradiction and has the same status, record digest, actor and reason |
| `RecordLaws.RefusalMeaning` | src/three_agent/adaptive_learning_contradictions.py:673-742 | which of the six lifecycle refusals a current call meets, by its newest event |
| `RecordLaws.OpenCanBeClosed` | src/three_agent/adaptive_learning_contradictions.py:729-742 | whatever is open can be closed by a current call with the same identity, and then no longer counts as open |
| `RecordLaws.RepetitionIsAnswered` | src/three_agent/adaptive_learning_contradictions.py:716-727 | a call repeated at the new head is answered with the event it appended |
| `RecordLaws.RecordMeaning` | src/three_agent/adaptive_learning_contradictions.py:619-825 | the whole answer: a recordable call appends and returns its event; any other leaves the table, and returns an earlier event exactly if it repeats it |
| `RecordLaws.StatisticsMeaning` | src/three_agent/adaptive_learning_contradictions.py:894-962 | the statistics of a candidate count its contradictions by the status of their newest events |
| `ContradictionIndex.AdaptiveLearningContradictionIndex.OpenForCandidate` | src/three_agent/adaptive_learning_contradictions.py:867-892 | returns exactly the open contradictions of the candidate by their latest row, in ascending order of id |
| `ContradictionIndex.AdaptiveLearningContradictionIndex.Report` | src/three_agent/adaptive_learning_contradictions.py:894-962 | succeeds on a sound index exactly when the groups fit, and groups the latest rows without losing an event, with the counts of each group; the two time stamps of a group are left out |
| `Effectiveness.CollectReceipts` | src/three_agent/adaptive_learning_effectiveness.py:552-577 | accepts exactly tables of valid, self-identified receipts filed under their task, returns the set of receipts, and never meets an id collision |
| `EffectivenessAnalyzer.CollectTask` | src/three_agent/adaptive_learning_effectiveness.py:635-654 | per task: refuses exactly when one knowledge version occurs under two domains, and otherwise maps every key to the receipts that name it |
| `EffectivenessAnalyzer.ObserveKeepsBucket` | src/three_agent/adaptive_learning_effectiveness.py:662-693 | counting one more task keeps every counter of a bucket equal to the set it stands for |
| `EffectivenessAnalyzer.TakeSnapshot` | src/three_agent/adaptive_learning_effectiveness.py:622-735 | the nested loops produce a snapshot exactly when the rows are valid, no task mixes domains and all tasks are known, and then every signal equals its set-comprehension definition and counts tasks by the status and verification of their views |
| `EffectivenessMeaning.SignalMeaning` | src/three_agent/adaptive_learning_effectiveness.py:579-730 | success counts the tasks with the key that are done and verified, unverified those done and not verified, the others by status, isolated ones likewise; resolved and passed add up the verdicts and the passes of the validators of those tasks; the advice follows its thresholds |
| `EffectivenessMeaning.SnapshotMeaning` | src/three_agent/adaptive_learning_effectiveness.py:622-735 | one signal for exactly the versions and domains that some receipt names, each with that meaning |
| `EffectivenessMeaning.AdviceMeaning` | src/three_agent/adaptive_learning_effectiveness.py:601-620 | domain review exactly for a sensitive domain with an adverse or two waiting tasks, review elsewhere with two adverse or three waiting ones, support exactly for three successes and nothing against it |
| `EffectivenessLaws.SnapshotIsDetermined` | src/three_agent/adaptive_learning_effectiveness.py:622-735 | the comprehension specification has only one solution |
| `EffectivenessLaws.SnapshotExists` | src/three_agent/adaptive_learning_effectiveness.py:622-735 | the comprehension specification always has a solution |
| `EffectivenessLaws.RepetitionAndOrderAreIgnored` | src/three_agent/adaptive_learning_effectiveness.py:222-226 | acceptance and the whole snapshot are unchanged by permuting or duplicating activity rows |
| `EffectivenessLaws.IsolationIsDoubleCounted` | src/three_agent/adaptive_learning_effectiveness.py:631-693 | isolated observations over all signals equal the number of tasks with exactly one knowledge version; confounded ones equal the sum of versions over the other tasks |
| `EffectivenessLaws.EveryTaskReused` | src/three_agent/adaptive_learning_effectiveness.py:148-149 | with non-empty receipts the tasks with at most one version are those with exactly one |
| `EffectivenessLaws.SignalsAreBalanced` | src/three_agent/adaptive_learning_effectiveness.py:662-730 | every emitted signal satisfies all partition and domination laws that later stages re-check |
| `EffectivenessLaws.RatesNeverFail` | src/three_agent/adaptive_learning_effectiveness.py:456-499 | the projection of an emitted signal is never rejected, shows success and failure over the finalized tasks and passes over the resolved validators, all and isolated, each with the nearest basis points, and its counts add up to the tasks of the signal |
| `EffectivenessRates.BasisPointsAreNearest` | src/three_agent/adaptive_learning_effectiveness.py:274-278 | the basis points are the one integer nearest to the ratio, halves rounded up, and lie between 0 and 10000 |
| `EffectivenessRates.FromCountsMeaning` | src/three_agent/adaptive_learning_effectiveness.py:262-306 | a rate is built exactly for 0 <= numerator <= denominator, re-validates, and has no basis points exactly for denominator 0 |
| `RevisionMetrics.ValidateRevisionMetrics` | src/three_agent/adaptive_learning_curation_revision_contract.py:85-108 | accepts exactly the seven fields, non-negative, with both partitions, and returns them unchanged |
| `CurationLaws.ValidCountersPassMetrics` | src/three_agent/adaptive_learning_curation_revision.py:732-743 | counters that curation accepts always give revision metrics that the packet accepts |
| `CurationLaws.ConsumersNeverRefuse` | src/three_agent/adaptive_learning_curation.py:112-145 | every snapshot of the analyzer passes the compiler snapshot checks, and each signal passes the counters, rate and metrics checks; the metrics are the seven counts of the signal |
| `CurationLaws.DomainReviewIsSensitiveHumanReview` | src/three_agent/adaptive_learning_curation.py:186-194 | for analyzer advice domain review is required exactly when human review is and the domain is network or security; no human review only for insufficient evidence below enterprise |
| `Curation.ValidateSnapshot` | src/three_agent/adaptive_learning_curation.py:427-453 | the loop with the growing identity set accepts exactly sound signals with pairwise distinct identities |
| `Curation.ValidateSet` | src/three_agent/adaptive_learning_curation.py:378-400 | the comparison with the sorted copy, the count of distinct ids and the per-proposal checks accept exactly sets that are in order, free of duplicate ids, valid and bound to the snapshot |
| `Curation.ArrangementIsUnique` | src/three_agent/adaptive_learning_curation.py:475-479 | the order in which the compiler visits the signals is determined |
| `CurationCompiler.RunsAreSteady` | src/three_agent/adaptive_learning_curation.py:471-505 | looks at successive states of any run are steady: verifications that name one checkpoint enclose one store |
| `CurationCompiler.LooksSeeOneStore` | src/three_agent/adaptive_learning_curation.py:471-505 | target checks made at different moments decide exactly what they would decide on the one store that both verifications authenticate |
| `CurationCompiler.OneSignalPerItem` | src/three_agent/adaptive_learning_curation.py:480-488 | signals that all hit what is active in one store concern distinct items, in strictly increasing order |
| `CurationCompiler.EmittedSetIsValid` | src/three_agent/adaptive_learning_curation.py:378-400 | after the loop the order, duplicate, binding and per-proposal checks of the set can no longer fail |
| `CurationCompiler.Compile` | src/three_agent/adaptive_learning_curation.py:471-514 | however its looks interleave with other calls, compiling succeeds exactly when the snapshot is sound and all its signals name what is active in the one store both verifications authenticate; it emits one faithful proposal per signal with strictly increasing items |
| `CurationLaws.RivalVersionsBlockCompilation` | src/three_agent/adaptive_learning_curation.py:480-488 | a snapshot with two signals for one item never compiles |
| `CurationLaws.RivalVersionsOccur` | src/three_agent/adaptive_learning_effectiveness.py:631-735 | concrete activity rows that the analyzer accepts, whose snapshot holds two versions of one item and compiles at no moment of any system |
| `CurationMeaning.TargetsMeaning` | src/three_agent/adaptive_learning_curation.py:455-488 | on a valid store a signal hits its target exactly when the active row is the version, in the domain, that it names; no other check of the target can fail |
| `CurationMeaning.ValidProposalMeaning` | src/three_agent/adaptive_learning_curation.py:301-346 | a proposal validates exactly when level, domain, action, review flags, balanced counts, reasons and content-derived id agree |
| `CurationMeaning.ProposalMeaning` | src/three_agent/adaptive_learning_curation.py:238-299 | an emitted proposal identifies the active row, carries the counts of the signal, and its action, review flags and reasons follow from the thresholds on those counts and from level and domain |
| `CurationMeaning.CompilationMeaning` | src/three_agent/adaptive_learning_curation.py:471-514 | from receipts and tasks to proposals: every member of a compiled set has that meaning for the store both verifications authenticate |
| `Maintenance.ValidateReceipt` | src/three_agent/adaptive_learning_maintenance.py:186-244 | accepts exactly the sound receipts, status by status |
| `Maintenance.RunOnce` | src/three_agent/adaptive_learning_maintenance.py:279-343 | a tick yields a receipt exactly when evidence is accepted, targets hit and the checkpoint stood still; the receipt is always valid, holds the set compiled from the looks in between and one recommendation for each of its proposals, and only input errors are possible |
| `EvidenceDiversity.ValidateExperience` | src/three_agent/adaptive_learning_contract.py:238-257 | the evidence loop accepts exactly 1 to 32 references with distinct ids, the right task and no sensitivity above the experience |
| `EvidenceDiversity.ValidatedSource` | src/three_agent/adaptive_learning_evidence_diversity.py:198-255 | one pass over the experiences accepts exactly valid, distinct, same-domain experiences whose lineage is the lineage of the candidate |
| `EvidenceDiversity.BindingIsExact` | src/three_agent/adaptive_learning_contract.py:387-417 | lineage is accepted exactly when building a candidate from these experiences with the same head gives this candidate |
| `EvidenceLineage.BuildableMeaning` | src/three_agent/adaptive_learning_contract.py:387-417 | building succeeds exactly for 1 to 32 valid experiences of the domain with distinct ids, no sensitivity above the head, verified success for memories and skills, at most 32 pieces of evidence whose ids and digests determine each other, and a head that creates or names target and base; it keeps the head and lists the experiences |
| `EvidenceLineage.UniqueMeaning` | src/three_agent/adaptive_learning_contract.py:402-415 | tasks and evidence are listed once each, in the order of their first occurrences |
| `EvidenceDiversity.LineageDeterminesExperiences` | src/three_agent/adaptive_learning_evidence_diversity.py:233-254 | one candidate binds one list of experiences |
| `EvidenceDiversity.FoldSynthetic` | src/three_agent/adaptive_learning_evidence_diversity.py:272-279 | the AND-fold marks a task synthetic exactly when every piece of evidence of all its experiences is |
| `EvidenceDiversity.CollectReasons` | src/three_agent/adaptive_learning_evidence_diversity.py:280-292 | the reasons are, without repetition, exactly the minimums that are missed |
| `EvidenceDiversity.Evaluate` | src/three_agent/adaptive_learning_evidence_diversity.py:257-310 | assesses exactly when the policy is valid, from_experiences rebuilds the candidate and the evidence fits; counts are the set sizes, and the assessment always passes its own validation |
| `EvidenceDiversity.DiversityIsMonotone` | src/three_agent/adaptive_learning_evidence_diversity.py:280-292 | with growing experience reasons only disappear, under every policy; order and repetition do not matter |
| `EvidenceDiversity.ProfilesAreOrdered` | src/three_agent/adaptive_learning_evidence_diversity.py:75-92 | passing enterprise implies approved implies validated, and what each of the three amounts to in tasks, digests, source types and non-synthetic tasks |
| `EvidenceDiversity.NonSyntheticMeaning` | src/three_agent/adaptive_learning_evidence_diversity.py:272-279 | a task counts as non-synthetic exactly when some experience of it has no evidence or evidence that is neither a fixture nor gathered in synthetic mode |
| `GovernanceLanes.ValidateLaneIndependence` | scripts/validate_execution_governance.py:363-382 | the nested loops accept exactly lanes with ids, distinct authorities and pairwise non-overlapping, non-empty entries |
| `GovernanceLanes.NoTwoOwners` | scripts/validate_execution_governance.py:357-360 | entries are pairwise apart exactly when every path is at or below at most one of them |
| `GovernanceLanes.AcceptedLanesShareNoPath` | scripts/validate_execution_governance.py:363-382 | accepted lanes leave every path at or below at most one declared entry of all lanes |
| `GovernanceLanes.LaneOrderIsIrrelevant` | scripts/validate_execution_governance.py:363-382 | acceptance does not depend on the order of the lanes |
| `GovernanceAttempts.RequireFailedFields` | scripts/validate_execution_governance.py:385-399 | accepts exactly failures with all required fields, evidence and log evidence or a missing-log plan |
| `GovernanceAttempts.CheckAttempts` | scripts/validate_execution_governance.py:402-442 | the pass with failure counter and seen ids accepts exactly lists with distinct ids in which every attempt is sound and answers its predecessor; the counter is the run of failures |
| `GovernanceAttempts.ValidateAttempts` | scripts/validate_execution_governance.py:402-453 | the attempts pass and support the declared status, both directions |
| `GovernanceLaws.BlocksUseTwoFamilies` | scripts/validate_execution_governance.py:425-428 | every block of threshold + 1 attempts whose first threshold ones fail uses at least two strategy families |
| `GovernanceLaws.MissingLogsAreAtMostHalf` | scripts/validate_execution_governance.py:429-437 | of n consecutive failures at most half, rounded up, have missing logs |
| `GovernanceLaws.ContinuableUnlessDeadEnd` | scripts/validate_execution_governance.py:422-437 | an accepted list can be continued at all exactly when its last attempt is no dead end, and then by a passing attempt |
| `GovernanceDeadEnds.FamilyDeadEnd` | scripts/validate_execution_governance.py:422-437 | under every policy that allows failures with and without logs, whatever its threshold and field lists, some accepted list ends in an instrumented failure without logs that nothing can follow, although its id can be quoted |
| `GovernanceDeadEnds.IdDeadEnd` | scripts/validate_execution_governance.py:416-424 | under every such policy some accepted list ends in a failure with logs whose id has surrounding white space, and nothing can follow it |
| `GovernanceLaws.AcceptedListsAvoidDeadEnds` | scripts/validate_execution_governance.py:422-437 | no accepted list passes through a dead end |
| `GovernanceLaws.PassAnswersEveryFailure` | scripts/validate_execution_governance.py:416-446 | in a lane that passed every failed attempt has a successor that quotes it, and that instruments if its logs were missing |
| `GovernanceLaws.HardFailureIsOnRecord` | scripts/validate_execution_governance.py:385-453 | a hard-failed lane has at least as many attempts as families are demanded, and its last attempt failed with all its fields and log evidence on record |
| `GovernanceLaws.HardFailureMeaning` | scripts/validate_execution_governance.py:447-453 | a hard failure is supported exactly when the last attempt failed and as many attempts as demanded use pairwise different strategy families |
| `Ranking.LexicalRank` | scripts/run_qwen3_production_benchmark.py:104-113 | ranks by score then id; the ranking is a permutation of the document ids, duplicate-free if they are |
| `Ranking.CosineRank` | scripts/run_qwen3_production_benchmark.py:116-124 | ranks by score then id; the ranking lists every document once, whatever the dictionary order |
| `Ranking.RankingIsDetermined` | scripts/run_qwen3_production_benchmark.py:104-124 | the ranking depends on the scored documents only, not on the order in which they were listed |
| `Ranking.HigherScoresComeFirst` | scripts/run_qwen3_production_benchmark.py:104-124 | of two ranked documents the earlier has the higher score, or the same score and the smaller id |
| `Ranking.SimilarityMeaning` | scripts/run_qwen3_production_benchmark.py:108-112 | the lexical score is symmetric, lies in [0, 1], is 0 exactly without common tokens and 1 exactly for the same non-empty tokens |
| `Ranking.DotMeaning` | scripts/run_qwen3_production_benchmark.py:116-124 | the score of two vectors of one length is the sum of the products of their coordinates |
| `Ranking.NdcgAtK` | scripts/run_qwen3_production_benchmark.py:140-147 | the accumulating loops compute the quotient of gained and ideal gain |
| `Ranking.HitsGainAtMostIdeal` | scripts/run_qwen3_production_benchmark.py:140-147 | rearrangement: h relevant entries gain at most what positions 1 to h gain, with equality exactly if they stand there |
| `Ranking.NdcgIsBounded` | scripts/run_qwen3_production_benchmark.py:140-147 | nDCG lies in [0, 1] and is 1 exactly when the first min(size of relevant, k) entries exist and are all relevant, with at least one sought |
| `Ranking.ReciprocalRank` | scripts/run_qwen3_production_benchmark.py:127-131 | the reciprocal of the position of the first relevant entry, and 0 exactly when there is none within the cut-off |
| `Ranking.PerfectNdcgIsPerfectRecall` | scripts/run_qwen3_production_benchmark.py:134-147 | at cut-offs that reach all relevant documents a perfect nDCG implies perfect recall, which means that all of them were found |

## Left out

- Hash functions, HMAC (section 2 of RFC 2104), canonical JSON, key decoding and key files: symbolic terms stand for them.
- File modes, symbolic links, temporary files, fsync and half-written journal lines: one journal append and one witness replacement are atomic; only receipt files have a torn state.
- SQLite, triggers, row coercion, generated event ids, and identifier, schema and text checks by regular expression: tables are sequences and identifiers are opaque.
- Several processes that ignore the shared lock file: the lock is taken to serialise calls.
- Sessions, authentication, reviewer grants and the promotion policy's own rules: a promotion carries the policy's verdict as a parameter.
- Key rotation and bootstrap by a thread that itself holds a pending expectation: expectations are modelled for mutations and verification.
- Worker subprocesses, prompts, redaction and packet contents: a worker is a nondeterministic answer; the checks that a coordinator makes before it claims only remove behaviours and are not modelled.
- Construction of the candidate of a reflection or revision, and its identity digests: the candidate is part of the worker's answer.
- ContradictionIndex.AdaptiveLearningContradictionIndex.Report: does not model the two time stamps of a group; they are maxima of text, which is not chronological when fractional seconds have different widths.
- Normalisation of write-set entries: lanes are taken with normalised entries. White space is the set of Unicode space characters; floating-point and exotic JSON values in receipts are not modelled.
- The rest of the governance policy (constant checks, percentages, git scans), fixtures, latencies and statistics of the benchmark: single-branch facts or I/O.
- Ranking.NdcgAtK: floats and log2 are not modelled; scores and gains are reals, and the discount is any strictly decreasing positive gain, of which 1 / log2(i + 1) is one.
- EvidenceDiversity.FromExperiences: models the lineage part of candidate validation; text scanning and enumerations of kinds and modes are opaque.
- ReceiptStore.Coordinator.Process: is one undisturbed process; interleavings and kills are covered by the protocol it is shown to follow.
