/** The analyzer's signals satisfy every later stage, and what a compilation speaks of. */
module CurationLaws {
  import opened Names
  import opened Wrappers
  import opened Counting
  import opened LearningStore
  import opened Checkpoint
  import opened CheckpointRuns
  import opened Curation
  import opened CurationCompiler
  import E = Effectiveness
  import EL = EffectivenessLaws
  import R = EffectivenessRates
  import M = RevisionMetrics

  /** The condition under which revision metrics are accepted. */
  ghost predicate MetricsAccepted(metrics: M.Metrics) {
    metrics.Keys == M.FIELD_SET && (forall f | f in M.FIELD_SET :: metrics[f] >= 0) && M.Balanced(metrics)
  }

  /** Valid counters also pass the revision packet's own partition checks. */
  lemma ValidCountersPassMetrics(c: Counters)
    requires ValidateCounters(c).Ok?
    ensures MetricsAccepted(MetricsOf(c))
  {
  }

  /** The packet's seven numbers are the signal's. */
  predicate MetricsCarry(metrics: M.Metrics, signal: E.Signal)
    requires metrics.Keys == M.FIELD_SET
  {
    && metrics[M.UniqueTasks] == signal.tasks && metrics[M.IsolatedTasks] == signal.isolated
    && metrics[M.ConfoundedTasks] == signal.confounded && metrics[M.IsolatedSuccess] == signal.isolatedSuccess
    && metrics[M.IsolatedFailed] == signal.isolatedFailed && metrics[M.IsolatedWaiting] == signal.isolatedWaiting
    && metrics[M.IsolatedUnverified] == signal.isolatedUnverified
  }

  lemma BalancedSignalsAreSound(signal: E.Signal)
    requires EL.Balanced(signal)
    ensures ValidateCounters(CountersOf(signal)) == Ok(CountersOf(signal))
    ensures MetricsAccepted(MetricsOf(CountersOf(signal))) && MetricsCarry(MetricsOf(CountersOf(signal)), signal)
  {
  }

  /** Every consumer accepts everything that the analyzer emits. */
  lemma ConsumersNeverRefuse(rows: seq<E.Activity>, tasks: map<Name, E.TaskView>, snapshot: E.Snapshot)
    requires EL.Accepted(rows, tasks) && E.SnapshotFor(snapshot, E.ReceiptsIn(rows), tasks)
    ensures SoundSnapshot(snapshot)
    ensures forall signal | signal in snapshot.signals ::
              && R.RateProjection(signal).Ok?
              && MetricsAccepted(MetricsOf(CountersOf(signal))) && MetricsCarry(MetricsOf(CountersOf(signal)), signal)
  {
    forall signal | signal in snapshot.signals
      ensures SoundSignal(signal) && R.RateProjection(signal).Ok?
      ensures MetricsAccepted(MetricsOf(CountersOf(signal))) && MetricsCarry(MetricsOf(CountersOf(signal)), signal)
    {
      EL.SignalsAreBalanced(signal, E.ReceiptsIn(rows), tasks);
      EL.SignalDomainsAreKnown(rows, snapshot, tasks, signal);
      EL.RatesNeverFail(signal);
      BalancedSignalsAreSound(signal);
    }
    EL.KeysAreListed(snapshot, E.ReceiptsIn(rows), tasks);
  }

  // ---------- What compiles ----------

  /** A snapshot in which an item occurs under two versions or domains never compiles. */
  lemma RivalVersionsBlockCompilation(snapshot: E.Snapshot, views: nat -> System, cfg: Config, keyring: Keyring, texts: Texts,
                                      a: E.Signal, b: E.Signal)
    requires SoundSnapshot(snapshot)
    requires a in snapshot.signals && b in snapshot.signals && a != b && a.key.itemId == b.key.itemId
    ensures !TargetsHit(snapshot, views, cfg, keyring, texts)
  {
    RivalsMiss(snapshot.signals, views(0).store, texts, a, b);
  }

  lemma RivalsMiss(signals: seq<E.Signal>, store: Store, texts: Texts, a: E.Signal, b: E.Signal)
    requires Distinct(E.KeyList(signals)) && a in signals && b in signals && a != b && a.key.itemId == b.key.itemId
    ensures !(Targets(store, a, texts) && Targets(store, b, texts))
  {
  }

  /** One task's receipt for one version of item "i". */
  function RivalReceipt(task: Name, sha: Name): E.Receipt {
    E.Receipt(task, "q", "general", "internal", [E.ItemRef("i", sha)])
  }

  function RivalRow(task: Name, sha: Name): E.Activity {
    var receipt := RivalReceipt(task, sha);
    E.Activity(task, Some(E.StoredReceipt(E.ReceiptId(receipt), receipt)))
  }

  lemma RivalKeys(rows: seq<E.Activity>)
    requires rows == [RivalRow("t", "s"), RivalRow("u", "v")]
    ensures E.ReceiptsIn(rows) == {RivalReceipt("t", "s"), RivalReceipt("u", "v")}
    ensures E.Key("i", "s", "general") in E.KeysOf(E.ReceiptsIn(rows))
    ensures E.Key("i", "v", "general") in E.KeysOf(E.ReceiptsIn(rows))
    ensures E.Consistent(E.ReceiptsIn(rows))
  {
    assert rows[0] in rows && rows[1] in rows;
    var s, v := RivalReceipt("t", "s"), RivalReceipt("u", "v");
    assert rows[0].details.value.receipt == s && rows[1].details.value.receipt == v;
    assert s.items[0] in s.items && v.items[0] in v.items;
    assert E.KeyOf(s.items[0], s.domain) == E.Key("i", "s", "general");
    assert E.KeyOf(v.items[0], v.domain) == E.Key("i", "v", "general");
  }

  /** Two tasks that reused two versions of one item: accepted evidence whose snapshot can never be compiled. */
  lemma RivalVersionsOccur() returns (rows: seq<E.Activity>, tasks: map<Name, E.TaskView>, snapshot: E.Snapshot)
    ensures EL.Accepted(rows, tasks) && E.SnapshotFor(snapshot, E.ReceiptsIn(rows), tasks) && SoundSnapshot(snapshot)
    ensures exists a, b :: a in snapshot.signals && b in snapshot.signals && a != b && a.key.itemId == b.key.itemId
    ensures forall views, cfg, keyring, texts :: !TargetsHit(snapshot, views, cfg, keyring, texts)
  {
    var done := E.TaskView(E.TaskDone, true, 1, 0);
    rows, tasks := [RivalRow("t", "s"), RivalRow("u", "v")], map["t" := done, "u" := done];
    RivalKeys(rows);
    assert EL.Accepted(rows, tasks);
    snapshot := EL.SnapshotExists(E.ReceiptsIn(rows), tasks);
    ConsumersNeverRefuse(rows, tasks, snapshot);
    var a := SignalWithKey(snapshot, E.ReceiptsIn(rows), tasks, E.Key("i", "s", "general"));
    var b := SignalWithKey(snapshot, E.ReceiptsIn(rows), tasks, E.Key("i", "v", "general"));
    assert "s"[0] != "v"[0];
    forall views, cfg, keyring, texts ensures !TargetsHit(snapshot, views, cfg, keyring, texts) {
      RivalVersionsBlockCompilation(snapshot, views, cfg, keyring, texts, a, b);
    }
  }

  lemma SignalWithKey(snapshot: E.Snapshot, receipts: set<E.Receipt>, tasks: map<Name, E.TaskView>, key: E.Key)
    returns (signal: E.Signal)
    requires E.SnapshotFor(snapshot, receipts, tasks) && key in E.KeysOf(receipts)
    ensures signal in snapshot.signals && signal.key == key
  {
    assert key in E.KeyList(snapshot.signals);
    var i :| 0 <= i < |snapshot.signals| && E.KeyList(snapshot.signals)[i] == key;
    signal := snapshot.signals[i];
  }

  // ---------- Review requirements ----------

  /** Domain review entails human review; for the analyzer's advice it is human review in a sensitive domain. */
  lemma DomainReviewIsSensitiveHumanReview(signal: E.Signal, seen: map<Name, E.Observation>, receipts: set<E.Receipt>,
                                           level: Level)
    requires E.SignalFor(signal, seen, receipts)
    ensures var (human, domainReview) := ReviewRequirements(signal.key.domain, level, ActionFor(signal.advice));
            && (domainReview <==> human && SensitiveDomain(signal.key.domain))
            && (!human ==> signal.advice.Insufficient? && !level.EnterpriseLevel?)
  {
  }
}
