/** What an emitted signal says, read off the receipts and the task views alone. */
module EffectivenessMeaning {
  import opened Names
  import opened Counting
  import opened Effectiveness

  /** The tasks with a receipt that names the version in the domain. */
  ghost function Reusers(receipts: set<Receipt>, key: Key): set<Name> {
    set r | r in receipts && r.domain == key.domain && ItemRef(key.itemId, key.sha) in r.items :: r.taskId
  }

  /** Those of them in which no receipt names any other version. */
  ghost function LoneReusers(receipts: set<Receipt>, key: Key): set<Name> {
    set t | t in Reusers(receipts, key) && NamesOnly(receipts, t, ItemRef(key.itemId, key.sha))
  }

  ghost predicate NamesOnly(receipts: set<Receipt>, t: Name, version: ItemRef) {
    forall r, item | r in receipts && r.taskId == t && item in r.items :: item == version
  }

  ghost function Verified(tasks: map<Name, TaskView>, s: set<Name>): set<Name> {
    set t | t in s && t in tasks && tasks[t].status.TaskDone? && tasks[t].verified
  }

  ghost function Unverified(tasks: map<Name, TaskView>, s: set<Name>): set<Name> {
    set t | t in s && t in tasks && tasks[t].status.TaskDone? && !tasks[t].verified
  }

  ghost function Having(tasks: map<Name, TaskView>, s: set<Name>, status: TaskStatus): set<Name> {
    set t | t in s && t in tasks && tasks[t].status == status
  }

  ghost function PassedIn(tasks: map<Name, TaskView>): Name -> nat {
    t => if t in tasks then tasks[t].passed else 0
  }

  ghost function ResolvedIn(tasks: map<Name, TaskView>): Name -> nat {
    t => if t in tasks then tasks[t].passed + tasks[t].failed else 0
  }

  /** Done tasks by verification, the others by status, and the validators that passed and that came to a verdict. */
  ghost predicate Reports(tasks: map<Name, TaskView>, s: set<Name>, success: nat, unverified: nat, failed: nat,
                          waiting: nat, resolved: nat, passed: nat) {
    && success == |Verified(tasks, s)| && unverified == |Unverified(tasks, s)|
    && failed == |Having(tasks, s, TaskFailed)| && waiting == |Having(tasks, s, TaskWaitingHuman)|
    && resolved == SumSet(s, ResolvedIn(tasks)) && passed == SumSet(s, PassedIn(tasks))
  }

  /**
    The advice by its thresholds on the isolated counts: in the two sensitive domains one failed or
    unverified task, or two waiting ones, ask for a review; elsewhere it takes two, or three.
    Support needs three successes and nothing against it.
  */
  predicate AdvisedBy(advice: Advice, sensitive: bool, success: nat, unverified: nat, failed: nat, waiting: nat) {
    && (advice.DomainReview? <==> sensitive && (failed >= 1 || unverified >= 1 || waiting >= 2))
    && (advice.Review? <==> !sensitive && (failed + unverified >= 2 || waiting >= 3))
    && (advice.Support? <==> failed == 0 && unverified == 0 && waiting == 0 && success >= 3)
  }

  ghost predicate Means(signal: Signal, receipts: set<Receipt>, tasks: map<Name, TaskView>) {
    var s, alone := Reusers(receipts, signal.key), LoneReusers(receipts, signal.key);
    && signal.tasks == |s| && signal.isolated == |alone| && signal.confounded == |s| - |alone|
    && signal.receipts ==
         |set r | r in receipts && r.domain == signal.key.domain && ItemRef(signal.key.itemId, signal.key.sha) in r.items|
    && signal.pending == |Having(tasks, s, TaskInProgress)|
    && Reports(tasks, s, signal.success, signal.unverified, signal.failed, signal.waiting, signal.resolved, signal.passed)
    && Reports(tasks, alone, signal.isolatedSuccess, signal.isolatedUnverified, signal.isolatedFailed,
               signal.isolatedWaiting, signal.isolatedResolved, signal.isolatedPassed)
    && AdvisedBy(signal.advice, signal.key.domain in {"network", "security"}, signal.isolatedSuccess,
                 signal.isolatedUnverified, signal.isolatedFailed, signal.isolatedWaiting)
  }

  // ---------- The specification says that ----------

  lemma ReusersAreTasksWith(receipts: set<Receipt>, key: Key)
    ensures TasksWith(receipts, key) == Reusers(receipts, key)
  {
    forall t | t in TasksWith(receipts, key) ensures t in Reusers(receipts, key) {
      var r, item :| r in ReceiptsOf(receipts, t) && item in r.items && KeyOf(item, r.domain) == key;
      assert r in receipts && item == ItemRef(key.itemId, key.sha);
    }
    forall t | t in Reusers(receipts, key) ensures t in TasksWith(receipts, key) {
      var r :| r in receipts && r.domain == key.domain && ItemRef(key.itemId, key.sha) in r.items && r.taskId == t;
      assert r in ReceiptsOf(receipts, t) && KeyOf(ItemRef(key.itemId, key.sha), r.domain) == key;
    }
  }

  lemma LoneMeansOneVersion(receipts: set<Receipt>, key: Key, t: Name)
    requires t in Reusers(receipts, key)
    ensures |ItemsOf(ReceiptsOf(receipts, t))| <= 1 <==> NamesOnly(receipts, t, ItemRef(key.itemId, key.sha))
  {
    var version, items := ItemRef(key.itemId, key.sha), ItemsOf(ReceiptsOf(receipts, t));
    var own :| own in receipts && own.domain == key.domain && version in own.items && own.taskId == t;
    assert own in ReceiptsOf(receipts, t) && version in items;
    if NamesOnly(receipts, t, version) {
      assert items == {version};
    } else {
      var r, item :| r in receipts && r.taskId == t && item in r.items && item != version;
      assert r in ReceiptsOf(receipts, t);
      SubsetSize({version, item}, items);
    }
  }

  lemma LoneAreIsolated(receipts: set<Receipt>, tasks: map<Name, TaskView>, key: Key)
    requires TaskIds(receipts) <= tasks.Keys
    ensures IsolatedIn(Observations(receipts, tasks), TasksWith(receipts, key)) == LoneReusers(receipts, key)
  {
    ReusersAreTasksWith(receipts, key);
    forall t | t in TasksWith(receipts, key)
      ensures Observations(receipts, tasks)[t].isolated <==> NamesOnly(receipts, t, ItemRef(key.itemId, key.sha))
    {
      LoneMeansOneVersion(receipts, key, t);
    }
  }

  /** The observed code of a task, in terms of its view. */
  ghost predicate CodedBy(code: Code, view: TaskView) {
    && (code == VerifiedSuccess <==> view.status.TaskDone? && view.verified)
    && (code == DoneUnverified <==> view.status.TaskDone? && !view.verified)
    && (code == Failed <==> view.status.TaskFailed?)
    && (code == WaitingHuman <==> view.status.TaskWaitingHuman?)
    && (code == Pending <==> view.status.TaskInProgress?)
  }

  lemma ObservationsAreCoded(receipts: set<Receipt>, tasks: map<Name, TaskView>, s: set<Name>)
    requires s <= TaskIds(receipts) <= tasks.Keys
    ensures s <= Observations(receipts, tasks).Keys
    ensures forall t | t in s :: CodedBy(Observations(receipts, tasks)[t].outcome.code, tasks[t])
  {
  }

  lemma CodesAreStatuses(seen: map<Name, Observation>, tasks: map<Name, TaskView>, s: set<Name>)
    requires s <= tasks.Keys && s <= seen.Keys && forall t | t in s :: CodedBy(seen[t].outcome.code, tasks[t])
    ensures CodeCount(seen, s, VerifiedSuccess) == |Verified(tasks, s)|
    ensures CodeCount(seen, s, DoneUnverified) == |Unverified(tasks, s)|
    ensures CodeCount(seen, s, Failed) == |Having(tasks, s, TaskFailed)|
    ensures CodeCount(seen, s, WaitingHuman) == |Having(tasks, s, TaskWaitingHuman)|
    ensures CodeCount(seen, s, Pending) == |Having(tasks, s, TaskInProgress)|
  {
    DoneCodes(seen, tasks, s);
    assert (set t | t in s && t in seen && seen[t].outcome.code == Failed) == Having(tasks, s, TaskFailed);
    assert (set t | t in s && t in seen && seen[t].outcome.code == WaitingHuman) == Having(tasks, s, TaskWaitingHuman);
    assert (set t | t in s && t in seen && seen[t].outcome.code == Pending) == Having(tasks, s, TaskInProgress);
  }

  lemma DoneCodes(seen: map<Name, Observation>, tasks: map<Name, TaskView>, s: set<Name>)
    requires s <= tasks.Keys && s <= seen.Keys && forall t | t in s :: CodedBy(seen[t].outcome.code, tasks[t])
    ensures CodeCount(seen, s, VerifiedSuccess) == |Verified(tasks, s)|
    ensures CodeCount(seen, s, DoneUnverified) == |Unverified(tasks, s)|
  {
    assert (set t | t in s && t in seen && seen[t].outcome.code == VerifiedSuccess) == Verified(tasks, s);
    assert (set t | t in s && t in seen && seen[t].outcome.code == DoneUnverified) == Unverified(tasks, s);
  }

  lemma SumsAreVerdicts(receipts: set<Receipt>, tasks: map<Name, TaskView>, s: set<Name>)
    requires s <= TaskIds(receipts) <= tasks.Keys
    ensures SumSet(s, ResolvedBy(Observations(receipts, tasks))) == SumSet(s, ResolvedIn(tasks))
    ensures SumSet(s, PassedBy(Observations(receipts, tasks))) == SumSet(s, PassedIn(tasks))
  {
    SumSetCongruence(s, ResolvedBy(Observations(receipts, tasks)), ResolvedIn(tasks));
    SumSetCongruence(s, PassedBy(Observations(receipts, tasks)), PassedIn(tasks));
  }

  lemma AdviceMeaning(domain: Name, success: nat, failed: nat, waiting: nat, unverified: nat)
    ensures AdvisedBy(Advise(domain, success, failed, waiting, unverified), domain in {"network", "security"}, success,
                      unverified, failed, waiting)
  {
  }

  /** An emitted signal counts done, verified, failed and waiting tasks as their views say. */
  lemma SignalMeaning(signal: Signal, receipts: set<Receipt>, tasks: map<Name, TaskView>)
    requires SignalFor(signal, Observations(receipts, tasks), receipts) && TaskIds(receipts) <= tasks.Keys
    ensures Means(signal, receipts, tasks)
  {
    var key := signal.key;
    ReusersAreTasksWith(receipts, key);
    LoneAreIsolated(receipts, tasks, key);
    ObservationsAreCoded(receipts, tasks, Reusers(receipts, key));
    CodesAreStatuses(Observations(receipts, tasks), tasks, Reusers(receipts, key));
    CodesAreStatuses(Observations(receipts, tasks), tasks, LoneReusers(receipts, key));
    SumsAreVerdicts(receipts, tasks, Reusers(receipts, key));
    SumsAreVerdicts(receipts, tasks, LoneReusers(receipts, key));
    AdviceMeaning(key.domain, signal.isolatedSuccess, signal.isolatedFailed, signal.isolatedWaiting, signal.isolatedUnverified);
    assert Naming(receipts, key) ==
      set r | r in receipts && r.domain == key.domain && ItemRef(key.itemId, key.sha) in r.items;
  }

  /** One signal per version and domain that any receipt names, each meaning what it says. */
  ghost predicate SnapshotMeans(snapshot: Snapshot, receipts: set<Receipt>, tasks: map<Name, TaskView>) {
    && (forall signal | signal in snapshot.signals :: Means(signal, receipts, tasks))
    && (forall key :: (exists signal :: signal in snapshot.signals && signal.key == key) <==> Reusers(receipts, key) != {})
    && snapshot.receiptCount == |receipts| && snapshot.taskCount == |set r | r in receipts :: r.taskId|
  }

  lemma SnapshotMeaning(snapshot: Snapshot, receipts: set<Receipt>, tasks: map<Name, TaskView>)
    requires SnapshotFor(snapshot, receipts, tasks) && TaskIds(receipts) <= tasks.Keys
    ensures SnapshotMeans(snapshot, receipts, tasks)
  {
    forall signal | signal in snapshot.signals ensures Means(signal, receipts, tasks) {
      SignalMeaning(signal, receipts, tasks);
    }
    forall key
      ensures (exists signal :: signal in snapshot.signals && signal.key == key) <==> Reusers(receipts, key) != {}
    {
      ListedKeys(snapshot.signals, key);
      KeysAreReused(receipts, key);
    }
  }

  lemma ListedKeys(signals: seq<Signal>, key: Key)
    ensures key in KeyList(signals) <==> exists signal :: signal in signals && signal.key == key
  {
    if key in KeyList(signals) {
      var i :| 0 <= i < |signals| && KeyList(signals)[i] == key;
      assert signals[i] in signals;
    }
    if signal :| signal in signals && signal.key == key {
      var i :| 0 <= i < |signals| && signals[i] == signal;
      assert KeyList(signals)[i] == key;
    }
  }

  lemma KeysAreReused(receipts: set<Receipt>, key: Key)
    ensures key in KeysOf(receipts) <==> Reusers(receipts, key) != {}
  {
    if key in KeysOf(receipts) {
      var r, item :| r in receipts && item in r.items && KeyOf(item, r.domain) == key;
      assert r.taskId in Reusers(receipts, key);
    }
    if t :| t in Reusers(receipts, key) {
      var r :| r in receipts && r.domain == key.domain && ItemRef(key.itemId, key.sha) in r.items && r.taskId == t;
      assert KeyOf(ItemRef(key.itemId, key.sha), r.domain) == key;
    }
  }
}
