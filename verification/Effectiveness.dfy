/**
  Observational feedback on reused knowledge: reuse receipts are joined with task outcomes by
  nested-dictionary loops, proved here against set comprehensions.
*/
module Effectiveness {
  import opened Names
  import opened Wrappers
  import opened Counting
  import opened Ordering

  datatype ItemRef = ItemRef(itemId: Name, sha: Name)

  datatype Receipt = Receipt(taskId: Name, querySha: Name, domain: Name, sensitivity: Name, items: seq<ItemRef>)

  /** A receipt id is the digest of the receipt's content. */
  datatype ReceiptId = ReceiptId(content: Receipt)

  datatype StoredReceipt = StoredReceipt(id: ReceiptId, receipt: Receipt)

  /** An activity row: its task column, and its details column when that decodes to a receipt object. */
  datatype Activity = Activity(taskId: Name, details: Option<StoredReceipt>)

  datatype TaskStatus = TaskDone | TaskFailed | TaskWaitingHuman | TaskInProgress

  /** A task's status and its validators' state, as the task store and the validator ledger report them. */
  datatype TaskView = TaskView(status: TaskStatus, verified: bool, passed: nat, failed: nat)

  datatype Code = VerifiedSuccess | Failed | WaitingHuman | Pending | DoneUnverified

  datatype Outcome = Outcome(code: Code, resolved: nat, passed: nat)

  datatype EffectivenessError = ReceiptInvalid | TaskMismatch | ReceiptIdCollision | DomainConflict | TaskUnknown

  datatype Advice = Insufficient | Support | Review | DomainReview

  /** The exact knowledge version and the domain it was reused in. */
  datatype Key = Key(itemId: Name, sha: Name, domain: Name)

  datatype Signal = Signal(
    key: Key, tasks: nat, receipts: nat, isolated: nat, confounded: nat,
    success: nat, failed: nat, waiting: nat, pending: nat, unverified: nat,
    isolatedSuccess: nat, isolatedFailed: nat, isolatedWaiting: nat, isolatedUnverified: nat,
    advice: Advice, resolved: nat, passed: nat, isolatedResolved: nat, isolatedPassed: nat)

  datatype Snapshot = Snapshot(signals: seq<Signal>, receiptCount: nat, taskCount: nat)

  const MAX_ITEMS: nat := 8
  const DOMAINS: set<Name> := {"network", "security", "analyst", "general"}

  // ---------- Orders ----------

  predicate ItemAtMost(a: ItemRef, b: ItemRef) {
    (a.itemId != b.itemId && AtMost(a.itemId, b.itemId)) || (a.itemId == b.itemId && AtMost(a.sha, b.sha))
  }

  function ByKey(): (Key, Key) -> bool {
    (a: Key, b: Key) =>
      var x, y := ItemRef(a.itemId, a.sha), ItemRef(b.itemId, b.sha);
      if x != y then ItemAtMost(x, y) else AtMost(a.domain, b.domain)
  }

  lemma ItemOrder(a: ItemRef, b: ItemRef, c: ItemRef)
    ensures ItemAtMost(a, b) || ItemAtMost(b, a)
    ensures ItemAtMost(a, b) && ItemAtMost(b, a) ==> a == b
    ensures ItemAtMost(a, b) && ItemAtMost(b, c) ==> ItemAtMost(a, c)
  {
    AtMostTotal(a.itemId, b.itemId);
    AtMostTotal(a.sha, b.sha);
    if AtMost(a.itemId, b.itemId) && AtMost(b.itemId, a.itemId) { AtMostAntisymmetric(a.itemId, b.itemId); }
    if AtMost(a.sha, b.sha) && AtMost(b.sha, a.sha) { AtMostAntisymmetric(a.sha, b.sha); }
    if AtMost(a.itemId, b.itemId) && AtMost(b.itemId, c.itemId) {
      AtMostTransitive(a.itemId, b.itemId, c.itemId);
      if a.itemId == c.itemId { AtMostAntisymmetric(a.itemId, b.itemId); }
    }
    if AtMost(a.sha, b.sha) && AtMost(b.sha, c.sha) { AtMostTransitive(a.sha, b.sha, c.sha); }
  }

  lemma ByKeyIsTotal()
    ensures TotalOrder(ByKey())
  {
    var leq := ByKey();
    forall a: Key, b: Key ensures leq(a, b) || leq(b, a) {
      ItemOrder(ItemRef(a.itemId, a.sha), ItemRef(b.itemId, b.sha), ItemRef(a.itemId, a.sha));
      AtMostTotal(a.domain, b.domain);
    }
    forall a: Key, b: Key | leq(a, b) && leq(b, a) ensures a == b {
      ItemOrder(ItemRef(a.itemId, a.sha), ItemRef(b.itemId, b.sha), ItemRef(a.itemId, a.sha));
      if a.itemId == b.itemId && a.sha == b.sha { AtMostAntisymmetric(a.domain, b.domain); }
    }
    forall a: Key, b: Key, c: Key | leq(a, b) && leq(b, c) ensures leq(a, c) {
      var x, y, z := ItemRef(a.itemId, a.sha), ItemRef(b.itemId, b.sha), ItemRef(c.itemId, c.sha);
      ItemOrder(x, y, z);
      ItemOrder(y, x, z);
      if x == y == z { AtMostTransitive(a.domain, b.domain, c.domain); }
    }
  }

  // ---------- Receipts ----------

  /** The receipt's own validation: known domain, one to eight items, unique and sorted, content-derived id. */
  predicate ValidReceipt(stored: StoredReceipt) {
    var items := stored.receipt.items;
    && stored.receipt.domain in DOMAINS
    && 1 <= |items| <= MAX_ITEMS
    && (forall i, j | 0 <= i < j < |items| :: ItemAtMost(items[i], items[j]) && items[i] != items[j])
    && stored.id == ReceiptId(stored.receipt)
  }

  predicate CleanRow(row: Activity) {
    row.details.Some? && ValidReceipt(row.details.value) && row.details.value.receipt.taskId == row.taskId
  }

  function ReceiptsIn(rows: seq<Activity>): set<Receipt> {
    set row | row in rows && row.details.Some? :: row.details.value.receipt
  }

  /** Decode and deduplicate the activity rows by receipt id. */
  method CollectReceipts(rows: seq<Activity>) returns (r: Result<set<Receipt>, EffectivenessError>)
    ensures r.Ok? <==> forall row | row in rows :: CleanRow(row)
    ensures r.Ok? ==> r.value == ReceiptsIn(rows)
    ensures r.Err? ==> r.error in {ReceiptInvalid, TaskMismatch}
  {
    var byId: map<ReceiptId, Receipt> := map[];
    for i := 0 to |rows|
      invariant forall k | 0 <= k < i :: CleanRow(rows[k])
      invariant forall id | id in byId :: id == ReceiptId(byId[id])
      invariant byId.Values == ReceiptsIn(rows[..i])
    {
      var row := rows[i];
      assert row in rows;
      if row.details.None? || !ValidReceipt(row.details.value) {
        return Err(ReceiptInvalid);
      }
      var stored := row.details.value;
      if row.taskId != stored.receipt.taskId {
        return Err(TaskMismatch);
      }
      if stored.id in byId && byId[stored.id] != stored.receipt {
        return Err(ReceiptIdCollision);
      }
      assert byId[stored.id := stored.receipt].Values == byId.Values + {stored.receipt} by {
        var grown := byId[stored.id := stored.receipt];
        forall v | v in byId.Values ensures v in grown.Values {
          var id :| id in byId && byId[id] == v;
          assert grown[id] == v;
        }
        assert grown[stored.id] == stored.receipt;
      }
      byId := byId[stored.id := stored.receipt];
      assert rows[..i + 1] == rows[..i] + [row];
    }
    assert rows[..|rows|] == rows;
    r := Ok(byId.Values);
  }

  // ---------- What the snapshot means ----------

  function TaskIds(receipts: set<Receipt>): set<Name> {
    set r | r in receipts :: r.taskId
  }

  function ReceiptsOf(receipts: set<Receipt>, task: Name): set<Receipt> {
    set r | r in receipts && r.taskId == task
  }

  function KeyOf(item: ItemRef, domain: Name): Key {
    Key(item.itemId, item.sha, domain)
  }

  function ItemOf(key: Key): ItemRef {
    ItemRef(key.itemId, key.sha)
  }

  /** The knowledge versions, with domains, that some receipts name. */
  function KeysOf(receipts: set<Receipt>): set<Key> {
    set r, item | r in receipts && item in r.items :: KeyOf(item, r.domain)
  }

  /** The distinct knowledge versions that some receipts name. */
  function ItemsOf(receipts: set<Receipt>): set<ItemRef> {
    set r, item | r in receipts && item in r.items :: item
  }

  function Naming(receipts: set<Receipt>, key: Key): set<Receipt> {
    set r | r in receipts && r.domain == key.domain && ItemOf(key) in r.items
  }

  /** No task reused one knowledge version under two domains. */
  predicate OneDomainPerItem(keys: set<Key>) {
    forall a, b | a in keys && b in keys :: ItemOf(a) == ItemOf(b) ==> a == b
  }

  predicate Consistent(receipts: set<Receipt>) {
    forall t | t in TaskIds(receipts) :: OneDomainPerItem(KeysOf(ReceiptsOf(receipts, t)))
  }

  function OutcomeOf(view: TaskView): Outcome {
    Outcome(
      match view.status
      case TaskDone => if view.verified then VerifiedSuccess else DoneUnverified
      case TaskFailed => Failed
      case TaskWaitingHuman => WaitingHuman
      case TaskInProgress => Pending,
      view.passed + view.failed, view.passed)
  }

  /** What one task contributes: its outcome, and whether another version was available in it. */
  datatype Observation = Observation(outcome: Outcome, isolated: bool)

  function ObservationOf(receipts: set<Receipt>, tasks: map<Name, TaskView>, t: Name): Observation
    requires t in tasks
  {
    Observation(OutcomeOf(tasks[t]), |ItemsOf(ReceiptsOf(receipts, t))| <= 1)
  }

  function Observations(receipts: set<Receipt>, tasks: map<Name, TaskView>): map<Name, Observation> {
    map t | t in TaskIds(receipts) && t in tasks :: ObservationOf(receipts, tasks, t)
  }

  /** The tasks in which a key was reused. */
  function TasksWith(receipts: set<Receipt>, key: Key): set<Name> {
    set t | t in TaskIds(receipts) && key in KeysOf(ReceiptsOf(receipts, t))
  }

  ghost function CodeCount(seen: map<Name, Observation>, s: set<Name>, code: Code): nat {
    |set t | t in s && t in seen && seen[t].outcome.code == code|
  }

  function IsolatedIn(seen: map<Name, Observation>, s: set<Name>): set<Name> {
    set t | t in s && t in seen && seen[t].isolated
  }

  ghost function ResolvedBy(seen: map<Name, Observation>): Name -> nat {
    t => if t in seen then seen[t].outcome.resolved else 0
  }

  ghost function PassedBy(seen: map<Name, Observation>): Name -> nat {
    t => if t in seen then seen[t].outcome.passed else 0
  }

  function Advise(domain: Name, success: nat, failed: nat, waiting: nat, unverified: nat): Advice {
    var adverse := failed + unverified;
    if domain in {"network", "security"} && (adverse >= 1 || waiting >= 2) then DomainReview
    else if domain !in {"network", "security"} && (adverse >= 2 || waiting >= 3) then Review
    else if success >= 3 && adverse == 0 && waiting == 0 then Support
    else Insufficient
  }

  /** Outcome counters of some tasks. */
  datatype Tally = Tally(outcomes: map<Code, nat>, resolved: nat, passed: nat)

  predicate Complete(tally: Tally) {
    forall c: Code :: c in tally.outcomes
  }

  /** The running counters of one key. */
  datatype Bucket = Bucket(tasks: set<Name>, receipts: set<Receipt>, isolated: nat, confounded: nat, all: Tally, alone: Tally)

  ghost predicate TallyFor(tally: Tally, seen: map<Name, Observation>, s: set<Name>) {
    && Complete(tally)
    && (forall c: Code :: tally.outcomes[c] == CodeCount(seen, s, c))
    && tally.resolved == SumSet(s, ResolvedBy(seen))
    && tally.passed == SumSet(s, PassedBy(seen))
  }

  /** What a bucket must hold once the key was seen in exactly the tasks of `s`. */
  ghost predicate BucketFor(bucket: Bucket, seen: map<Name, Observation>, s: set<Name>, named: set<Receipt>) {
    && bucket.tasks == s && bucket.receipts == named
    && bucket.isolated == |IsolatedIn(seen, s)| && bucket.isolated + bucket.confounded == |s|
    && TallyFor(bucket.all, seen, s)
    && TallyFor(bucket.alone, seen, IsolatedIn(seen, s))
  }

  /** Four outcome counts and two validator counts of the tasks in `s`. */
  ghost predicate CountsFor(seen: map<Name, Observation>, s: set<Name>, success: nat, failed: nat, waiting: nat,
                            unverified: nat, resolved: nat, passed: nat) {
    && success == CodeCount(seen, s, VerifiedSuccess) && failed == CodeCount(seen, s, Failed)
    && waiting == CodeCount(seen, s, WaitingHuman) && unverified == CodeCount(seen, s, DoneUnverified)
    && resolved == SumSet(s, ResolvedBy(seen)) && passed == SumSet(s, PassedBy(seen))
  }

  /** The signal that a key deserves, stated by comprehension over all receipts. */
  ghost predicate SignalFor(signal: Signal, seen: map<Name, Observation>, receipts: set<Receipt>) {
    var s := TasksWith(receipts, signal.key);
    var alone := IsolatedIn(seen, s);
    && signal.tasks == |s| && signal.receipts == |Naming(receipts, signal.key)|
    && signal.isolated == |alone| && signal.isolated + signal.confounded == |s|
    && signal.pending == CodeCount(seen, s, Pending)
    && CountsFor(seen, s, signal.success, signal.failed, signal.waiting, signal.unverified, signal.resolved, signal.passed)
    && CountsFor(seen, alone, signal.isolatedSuccess, signal.isolatedFailed, signal.isolatedWaiting,
                 signal.isolatedUnverified, signal.isolatedResolved, signal.isolatedPassed)
    && signal.advice == Advise(signal.key.domain, signal.isolatedSuccess, signal.isolatedFailed,
                               signal.isolatedWaiting, signal.isolatedUnverified)
  }

  function KeyList(signals: seq<Signal>): (keys: seq<Key>)
    ensures |keys| == |signals| && forall i | 0 <= i < |keys| :: keys[i] == signals[i].key
  {
    seq(|signals|, i requires 0 <= i < |signals| => signals[i].key)
  }

  /** One signal per key that any receipt names, in key order. */
  ghost predicate SnapshotFor(snapshot: Snapshot, receipts: set<Receipt>, tasks: map<Name, TaskView>) {
    && SortedSetOf(KeyList(snapshot.signals), KeysOf(receipts), ByKey())
    && (forall signal | signal in snapshot.signals :: SignalFor(signal, Observations(receipts, tasks), receipts))
    && snapshot.receiptCount == |receipts|
    && snapshot.taskCount == |TaskIds(receipts)|
  }
}
