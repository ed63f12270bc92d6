/** Laws of the effectiveness snapshot that span signals, tasks and consumers. */
module EffectivenessLaws {
  import opened Names
  import opened Wrappers
  import opened Counting
  import opened Ordering
  import opened Effectiveness
  import opened EffectivenessRates

  // ---------- The snapshot is a function of the set of rows ----------

  /** When the analyzer produces a snapshot at all. */
  ghost predicate Accepted(rows: seq<Activity>, tasks: map<Name, TaskView>) {
    && (forall row | row in rows :: CleanRow(row))
    && Consistent(ReceiptsIn(rows))
    && TaskIds(ReceiptsIn(rows)) <= tasks.Keys
  }

  lemma SnapshotIsDetermined(a: Snapshot, b: Snapshot, receipts: set<Receipt>, tasks: map<Name, TaskView>)
    requires SnapshotFor(a, receipts, tasks) && SnapshotFor(b, receipts, tasks)
    ensures a == b
  {
    ByKeyIsTotal();
    SortedListingIsUnique(KeyList(a.signals), KeyList(b.signals), KeysOf(receipts), ByKey());
    assert |a.signals| == |KeyList(a.signals)| == |b.signals|;
    forall i | 0 <= i < |a.signals| ensures a.signals[i] == b.signals[i] {
      assert a.signals[i] in a.signals && b.signals[i] in b.signals;
      assert a.signals[i].key == KeyList(a.signals)[i] == b.signals[i].key;
      SignalIsDetermined(a.signals[i], b.signals[i], Observations(receipts, tasks), receipts);
    }
  }

  lemma SignalIsDetermined(a: Signal, b: Signal, seen: map<Name, Observation>, receipts: set<Receipt>)
    requires a.key == b.key && SignalFor(a, seen, receipts) && SignalFor(b, seen, receipts)
    ensures a == b
  {
  }

  lemma SignalExists(key: Key, seen: map<Name, Observation>, receipts: set<Receipt>) returns (signal: Signal)
    ensures signal.key == key && SignalFor(signal, seen, receipts)
  {
    var s := TasksWith(receipts, key);
    var alone := IsolatedIn(seen, s);
    SubsetSize(alone, s);
    signal := Signal(
      key, |s|, |Naming(receipts, key)|, |alone|, |s| - |alone|,
      CodeCount(seen, s, VerifiedSuccess), CodeCount(seen, s, Failed), CodeCount(seen, s, WaitingHuman),
      CodeCount(seen, s, Pending), CodeCount(seen, s, DoneUnverified),
      CodeCount(seen, alone, VerifiedSuccess), CodeCount(seen, alone, Failed), CodeCount(seen, alone, WaitingHuman),
      CodeCount(seen, alone, DoneUnverified),
      Advise(key.domain, CodeCount(seen, alone, VerifiedSuccess), CodeCount(seen, alone, Failed),
             CodeCount(seen, alone, WaitingHuman), CodeCount(seen, alone, DoneUnverified)),
      SumSet(s, ResolvedBy(seen)), SumSet(s, PassedBy(seen)), SumSet(alone, ResolvedBy(seen)), SumSet(alone, PassedBy(seen)));
  }

  /** The comprehension specification always has a solution. */
  lemma SnapshotExists(receipts: set<Receipt>, tasks: map<Name, TaskView>) returns (snapshot: Snapshot)
    ensures SnapshotFor(snapshot, receipts, tasks)
  {
    ByKeyIsTotal();
    var keys := SortedListingExists(KeysOf(receipts), ByKey());
    var signals: seq<Signal> := [];
    for i := 0 to |keys|
      invariant |signals| == i && forall k | 0 <= k < i :: signals[k].key == keys[k]
      invariant forall signal | signal in signals :: SignalFor(signal, Observations(receipts, tasks), receipts)
    {
      var signal := SignalExists(keys[i], Observations(receipts, tasks), receipts);
      signals := signals + [signal];
    }
    assert KeyList(signals) == keys;
    snapshot := Snapshot(signals, |receipts|, |TaskIds(receipts)|);
  }

  /** Neither the order nor the number of copies of an activity row matters. */
  lemma RepetitionAndOrderAreIgnored(rows: seq<Activity>, others: seq<Activity>, tasks: map<Name, TaskView>)
    requires forall row :: row in rows <==> row in others
    ensures Accepted(rows, tasks) <==> Accepted(others, tasks)
    ensures forall a, b | SnapshotFor(a, ReceiptsIn(rows), tasks) && SnapshotFor(b, ReceiptsIn(others), tasks) :: a == b
  {
    assert ReceiptsIn(rows) == ReceiptsIn(others);
    forall a, b | SnapshotFor(a, ReceiptsIn(rows), tasks) && SnapshotFor(b, ReceiptsIn(others), tasks) ensures a == b {
      SnapshotIsDetermined(a, b, ReceiptsIn(rows), tasks);
    }
  }

  // ---------- Double counting ----------

  /** The tasks that reused at most one knowledge version, and the others. */
  ghost function Alone(receipts: set<Receipt>): set<Name> {
    set t | t in TaskIds(receipts) && |ItemsOf(ReceiptsOf(receipts, t))| <= 1
  }

  ghost function Exactly(receipts: set<Receipt>): set<Name> {
    set t | t in TaskIds(receipts) && |ItemsOf(ReceiptsOf(receipts, t))| == 1
  }

  ghost function TaskKeys(receipts: set<Receipt>): Name -> set<Key> {
    t => KeysOf(ReceiptsOf(receipts, t))
  }

  ghost function VersionCount(receipts: set<Receipt>): Name -> nat {
    t => |ItemsOf(ReceiptsOf(receipts, t))|
  }

  ghost function IsolatedCount(): Signal -> nat { (signal: Signal) => signal.isolated }

  ghost function ConfoundedCount(): Signal -> nat { (signal: Signal) => signal.confounded }

  lemma {:induction false} SumByImage<A, K>(xs: seq<A>, ys: seq<K>, f: A -> nat, g: K -> nat)
    requires |xs| == |ys| && forall i | 0 <= i < |xs| :: f(xs[i]) == g(ys[i])
    ensures SumBy(xs, f) == SumBy(ys, g)
  {
    if xs != [] {
      SumByImage(xs[..|xs| - 1], ys[..|ys| - 1], f, g);
    }
  }

  /** In a task without domain conflicts, keys and versions are equinumerous. */
  lemma {:induction false} KeysAreVersions(keys: set<Key>)
    requires OneDomainPerItem(keys)
    ensures |keys| == |set k | k in keys :: ItemOf(k)|
  {
    if keys != {} {
      var k :| k in keys;
      KeysAreVersions(keys - {k});
      var rest := set x | x in keys - {k} :: ItemOf(x);
      assert (set x | x in keys :: ItemOf(x)) == rest + {ItemOf(k)};
      assert ItemOf(k) !in rest;
    }
  }

  lemma TaskKeysAreVersions(receipts: set<Receipt>, t: Name)
    requires Consistent(receipts) && t in TaskIds(receipts)
    ensures SizeOf(TaskKeys(receipts))(t) == VersionCount(receipts)(t)
  {
    var mine := ReceiptsOf(receipts, t);
    KeysAreVersions(KeysOf(mine));
    forall item | item in ItemsOf(mine) ensures item in (set k | k in KeysOf(mine) :: ItemOf(k)) {
      var r :| r in mine && item in r.items;
      assert KeyOf(item, r.domain) in KeysOf(mine) && ItemOf(KeyOf(item, r.domain)) == item;
    }
    assert (set k | k in KeysOf(mine) :: ItemOf(k)) == ItemsOf(mine);
  }

  lemma SignalDegrees(signal: Signal, receipts: set<Receipt>, tasks: map<Name, TaskView>)
    requires SignalFor(signal, Observations(receipts, tasks), receipts) && TaskIds(receipts) <= tasks.Keys
    ensures signal.isolated == Degree(Alone(receipts), TaskKeys(receipts))(signal.key)
    ensures signal.confounded == Degree(TaskIds(receipts) - Alone(receipts), TaskKeys(receipts))(signal.key)
  {
    TasksByIsolation(signal.key, receipts, tasks);
  }

  /** The tasks with a key, split into the isolated ones and the others. */
  lemma TasksByIsolation(key: Key, receipts: set<Receipt>, tasks: map<Name, TaskView>)
    requires TaskIds(receipts) <= tasks.Keys
    ensures var s := TasksWith(receipts, key);
            var alone := IsolatedIn(Observations(receipts, tasks), s);
            && Degree(Alone(receipts), TaskKeys(receipts))(key) == |alone|
            && Degree(TaskIds(receipts) - Alone(receipts), TaskKeys(receipts))(key) == |s| - |alone|
  {
    var s := TasksWith(receipts, key);
    var alone := IsolatedIn(Observations(receipts, tasks), s);
    assert alone == s * Alone(receipts);
    TouchingIsTasksWith(receipts, key);
    assert Touching(Alone(receipts), TaskKeys(receipts), key) == alone;
    assert Touching(TaskIds(receipts) - Alone(receipts), TaskKeys(receipts), key) == s - alone;
  }

  lemma TouchingIsTasksWith(receipts: set<Receipt>, key: Key)
    ensures Touching(Alone(receipts), TaskKeys(receipts), key) == TasksWith(receipts, key) * Alone(receipts)
    ensures Touching(TaskIds(receipts) - Alone(receipts), TaskKeys(receipts), key)
            == TasksWith(receipts, key) - Alone(receipts)
  {
  }

  lemma KeysAreListed(snapshot: Snapshot, receipts: set<Receipt>, tasks: map<Name, TaskView>)
    requires SnapshotFor(snapshot, receipts, tasks)
    ensures Distinct(KeyList(snapshot.signals))
    ensures forall t, k | k in TaskKeys(receipts)(t) :: k in KeyList(snapshot.signals)
  {
  }

  lemma SumOfDegrees(snapshot: Snapshot, receipts: set<Receipt>, tasks: map<Name, TaskView>, s: set<Name>, f: Signal -> nat)
    requires SnapshotFor(snapshot, receipts, tasks) && Consistent(receipts) && s <= TaskIds(receipts)
    requires forall signal | signal in snapshot.signals :: f(signal) == Degree(s, TaskKeys(receipts))(signal.key)
    ensures SumBy(snapshot.signals, f) == SumSet(s, VersionCount(receipts))
  {
    var keys := KeyList(snapshot.signals);
    KeysAreListed(snapshot, receipts, tasks);
    SumByImage(snapshot.signals, keys, f, Degree(s, TaskKeys(receipts)));
    DoubleCount(s, TaskKeys(receipts), keys);
    forall t | t in s ensures SizeOf(TaskKeys(receipts))(t) == VersionCount(receipts)(t) {
      TaskKeysAreVersions(receipts, t);
    }
    SumSetCongruence(s, SizeOf(TaskKeys(receipts)), VersionCount(receipts));
  }

  lemma {:induction false} SumSetOfIndicators<T>(s: set<T>, ones: set<T>, f: T -> nat)
    requires ones <= s && forall t | t in s :: f(t) == if t in ones then 1 else 0
    ensures SumSet(s, f) == |ones|
  {
    if s != {} {
      var t :| t in s;
      SumSetPick(s, f, t);
      SumSetOfIndicators(s - {t}, ones - {t}, f);
    }
  }

  /** Isolation counted by signals equals isolation counted by tasks. */
  lemma IsolationIsDoubleCounted(snapshot: Snapshot, receipts: set<Receipt>, tasks: map<Name, TaskView>)
    requires Consistent(receipts) && TaskIds(receipts) <= tasks.Keys && SnapshotFor(snapshot, receipts, tasks)
    ensures SumBy(snapshot.signals, IsolatedCount()) == |Exactly(receipts)|
    ensures SumBy(snapshot.signals, ConfoundedCount())
            == SumSet(TaskIds(receipts) - Alone(receipts), VersionCount(receipts))
  {
    forall signal | signal in snapshot.signals
      ensures IsolatedCount()(signal) == Degree(Alone(receipts), TaskKeys(receipts))(signal.key)
      ensures ConfoundedCount()(signal) == Degree(TaskIds(receipts) - Alone(receipts), TaskKeys(receipts))(signal.key)
    {
      SignalDegrees(signal, receipts, tasks);
    }
    SumOfDegrees(snapshot, receipts, tasks, Alone(receipts), IsolatedCount());
    SumOfDegrees(snapshot, receipts, tasks, TaskIds(receipts) - Alone(receipts), ConfoundedCount());
    SumSetOfIndicators(Alone(receipts), Exactly(receipts), VersionCount(receipts));
  }

  /** With valid receipts every task reused something, so both sums range over all tasks. */
  lemma EveryTaskReused(receipts: set<Receipt>)
    requires forall r | r in receipts :: r.items != []
    ensures Alone(receipts) == Exactly(receipts)
  {
    forall t | t in Alone(receipts) ensures t in Exactly(receipts) {
      var r :| r in receipts && r.taskId == t;
      var item := r.items[0];
      assert r in ReceiptsOf(receipts, t) && item in r.items;
      assert item in ItemsOf(ReceiptsOf(receipts, t));
    }
  }

  // ---------- What every signal satisfies ----------

  ghost predicate Balanced(s: Signal) {
    && s.isolated + s.confounded == s.tasks
    && s.success + s.failed + s.waiting + s.pending + s.unverified == s.tasks
    && s.isolatedSuccess <= s.success && s.isolatedFailed <= s.failed
    && s.isolatedWaiting <= s.waiting && s.isolatedUnverified <= s.unverified
    && s.isolatedSuccess + s.isolatedFailed + s.isolatedWaiting + s.isolatedUnverified <= s.isolated
    && s.passed <= s.resolved && s.isolatedPassed <= s.isolatedResolved && s.isolatedResolved <= s.resolved
  }

  ghost function CodeOf(seen: map<Name, Observation>): Name -> Code {
    t => if t in seen then seen[t].outcome.code else Pending
  }

  const CODES: seq<Code> := [VerifiedSuccess, Failed, WaitingHuman, Pending, DoneUnverified]

  lemma EveryCode(c: Code)
    ensures c in CODES
  {
  }

  ghost function CodeSize(seen: map<Name, Observation>, s: set<Name>): Code -> nat {
    c => CodeCount(seen, s, c)
  }

  /** Every observed task has exactly one of the five outcomes. */
  lemma OutcomesPartition(seen: map<Name, Observation>, s: set<Name>)
    requires s <= seen.Keys
    ensures CodeCount(seen, s, VerifiedSuccess) + CodeCount(seen, s, Failed) + CodeCount(seen, s, WaitingHuman)
            + CodeCount(seen, s, Pending) + CodeCount(seen, s, DoneUnverified) == |s|
  {
    forall t | t in s ensures CodeOf(seen)(t) in CODES { EveryCode(CodeOf(seen)(t)); }
    PartitionCount(s, CodeOf(seen), CODES);
    forall c | c in CODES ensures PartSize(s, CodeOf(seen))(c) == CodeSize(seen, s)(c) {
      assert Part(s, CodeOf(seen), c) == set t | t in s && t in seen && seen[t].outcome.code == c;
    }
    SumByCongruence(CODES, PartSize(s, CodeOf(seen)), CodeSize(seen, s));
    FiveTerms(CodeSize(seen, s));
  }

  lemma FiveTerms(f: Code -> nat)
    ensures SumBy(CODES, f) == f(VerifiedSuccess) + f(Failed) + f(WaitingHuman) + f(Pending) + f(DoneUnverified)
  {
    assert [] + [VerifiedSuccess] + [Failed] + [WaitingHuman] + [Pending] + [DoneUnverified] == CODES;
    SumByPush([], VerifiedSuccess, f);
    SumByPush([] + [VerifiedSuccess], Failed, f);
    SumByPush([] + [VerifiedSuccess] + [Failed], WaitingHuman, f);
    SumByPush([] + [VerifiedSuccess] + [Failed] + [WaitingHuman], Pending, f);
    SumByPush([] + [VerifiedSuccess] + [Failed] + [WaitingHuman] + [Pending], DoneUnverified, f);
  }

  lemma SumByPush<K>(keys: seq<K>, k: K, f: K -> nat)
    ensures SumBy(keys + [k], f) == SumBy(keys, f) + f(k)
  {
  }

  lemma CodeCountIsMonotone(seen: map<Name, Observation>, s: set<Name>, u: set<Name>, c: Code)
    requires s <= u
    ensures CodeCount(seen, s, c) <= CodeCount(seen, u, c)
  {
    SubsetSize((set t | t in s && t in seen && seen[t].outcome.code == c),
               (set t | t in u && t in seen && seen[t].outcome.code == c));
  }

  lemma SignalsAreBalanced(signal: Signal, receipts: set<Receipt>, tasks: map<Name, TaskView>)
    requires SignalFor(signal, Observations(receipts, tasks), receipts) && TaskIds(receipts) <= tasks.Keys
    ensures Balanced(signal)
  {
    var seen := Observations(receipts, tasks);
    var s := TasksWith(receipts, signal.key);
    var alone := IsolatedIn(seen, s);
    OutcomesPartition(seen, s);
    OutcomesPartition(seen, alone);
    CodeCountIsMonotone(seen, alone, s, VerifiedSuccess);
    CodeCountIsMonotone(seen, alone, s, Failed);
    CodeCountIsMonotone(seen, alone, s, WaitingHuman);
    CodeCountIsMonotone(seen, alone, s, DoneUnverified);
    SumSetAtMost(s, PassedBy(seen), ResolvedBy(seen));
    SumSetAtMost(alone, PassedBy(seen), ResolvedBy(seen));
    SumSetSubset(alone, s, ResolvedBy(seen));
  }

  /** The exact ratio, with the nearest number of basis points unless nothing was counted. */
  ghost predicate RateIs(rate: Rate, num: int, den: int) {
    && rate.numerator == num && rate.denominator == den
    && if den == 0 then rate.basisPoints.None? else rate.basisPoints.Some? && Nearest(rate.basisPoints.value, num, den)
  }

  /** The projection shows these six ratios. */
  ghost predicate Shows(p: Projection, s: Signal) {
    var finalized := s.success + s.failed + s.unverified;
    var isolatedFinalized := s.isolatedSuccess + s.isolatedFailed + s.isolatedUnverified;
    && p.key == s.key && p.finalized == finalized && p.isolatedFinalized == isolatedFinalized
    && p.resolved == s.resolved && p.isolatedResolved == s.isolatedResolved
    && RateIs(p.success, s.success, finalized) && RateIs(p.failure, s.failed, finalized)
    && RateIs(p.validatorPass, s.passed, s.resolved)
    && RateIs(p.isolatedSuccess, s.isolatedSuccess, isolatedFinalized)
    && RateIs(p.isolatedFailure, s.isolatedFailed, isolatedFinalized)
    && RateIs(p.isolatedValidatorPass, s.isolatedPassed, s.isolatedResolved)
  }

  lemma CountsMakeRate(num: int, den: int)
    requires 0 <= num <= den
    ensures FromCounts(num, den).Ok? && RateIs(FromCounts(num, den).value, num, den)
    ensures ValidateRate(FromCounts(num, den).value).Ok?
  {
    FromCountsMeaning(num, den);
  }

  /** No rate of a signal that the analyzer emits is ever rejected. */
  lemma RatesNeverFail(signal: Signal)
    requires Balanced(signal) && signal.key.domain in DOMAINS
    ensures RateProjection(signal).Ok? && Shows(RateProjection(signal).value, signal)
    ensures var p := RateProjection(signal).value;
            && p.success.numerator + p.failure.numerator + signal.unverified == p.finalized
            && p.finalized + signal.waiting + signal.pending == signal.tasks
  {
    var finalized := signal.success + signal.failed + signal.unverified;
    var isolatedFinalized := signal.isolatedSuccess + signal.isolatedFailed + signal.isolatedUnverified;
    CountsMakeRate(signal.success, finalized);
    CountsMakeRate(signal.failed, finalized);
    CountsMakeRate(signal.passed, signal.resolved);
    CountsMakeRate(signal.isolatedSuccess, isolatedFinalized);
    CountsMakeRate(signal.isolatedFailed, isolatedFinalized);
    CountsMakeRate(signal.isolatedPassed, signal.isolatedResolved);
    var p := Projection(
      signal.key, finalized, isolatedFinalized, signal.resolved, signal.isolatedResolved,
      FromCounts(signal.success, finalized).value, FromCounts(signal.failed, finalized).value,
      FromCounts(signal.passed, signal.resolved).value,
      FromCounts(signal.isolatedSuccess, isolatedFinalized).value, FromCounts(signal.isolatedFailed, isolatedFinalized).value,
      FromCounts(signal.isolatedPassed, signal.isolatedResolved).value);
    ShownPasses(p, signal);
    assert RateProjection(signal) == ValidateProjection(p);
  }

  lemma ShownPasses(p: Projection, s: Signal)
    requires Balanced(s) && s.key.domain in DOMAINS && Shows(p, s)
    requires ValidateRate(p.success).Ok? && ValidateRate(p.failure).Ok? && ValidateRate(p.validatorPass).Ok?
    requires ValidateRate(p.isolatedSuccess).Ok? && ValidateRate(p.isolatedFailure).Ok?
    requires ValidateRate(p.isolatedValidatorPass).Ok?
    ensures ValidateProjection(p) == Ok(p)
  {
  }

  /** Every emitted key comes from a valid receipt, so its domain is known. */
  lemma SignalDomainsAreKnown(rows: seq<Activity>, snapshot: Snapshot, tasks: map<Name, TaskView>, signal: Signal)
    requires Accepted(rows, tasks) && SnapshotFor(snapshot, ReceiptsIn(rows), tasks) && signal in snapshot.signals
    ensures signal.key.domain in DOMAINS
  {
    var i :| 0 <= i < |snapshot.signals| && snapshot.signals[i] == signal;
    assert KeyList(snapshot.signals)[i] == signal.key;
    assert signal.key in KeysOf(ReceiptsIn(rows));
    var r, item :| r in ReceiptsIn(rows) && item in r.items && KeyOf(item, r.domain) == signal.key;
    var row :| row in rows && row.details.Some? && row.details.value.receipt == r;
    assert CleanRow(row);
  }
}
