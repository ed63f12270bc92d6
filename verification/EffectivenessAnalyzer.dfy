/** The analyzer's nested-dictionary loops, proved to compute the snapshot specification. */
module EffectivenessAnalyzer {
  import opened Names
  import opened Wrappers
  import opened Counting
  import opened Ordering
  import opened Effectiveness
  import opened EffectivenessMeaning

  // ---------- One task's receipts ----------

  type Pair = (Receipt, ItemRef)

  ghost function Pairs(receipts: set<Receipt>): set<Pair> {
    set r, item | r in receipts && item in r.items :: (r, item)
  }

  function KeyOfPair(p: Pair): Key {
    KeyOf(p.1, p.0.domain)
  }

  ghost function Tagged(receipt: Receipt, items: seq<ItemRef>): set<Pair> {
    set item | item in items :: (receipt, item)
  }

  ghost function KeysIn(visited: set<Pair>): set<Key> {
    set p | p in visited :: KeyOfPair(p)
  }

  ghost function ItemsIn(visited: set<Pair>): set<ItemRef> {
    set p: Pair | p in visited :: p.1
  }

  ghost function NamingIn(visited: set<Pair>, key: Key): set<Receipt> {
    set p | p in visited && KeyOfPair(p) == key :: p.0
  }

  ghost function DomainsIn(visited: set<Pair>, item: ItemRef): set<Name> {
    set p | p in visited && p.1 == item :: p.0.domain
  }

  ghost function NamesOf(names: seq<Name>): set<Name> {
    set t | t in names
  }

  /** `named` and `domains` hold exactly what the visited (receipt, item) pairs say. */
  ghost predicate Collected(visited: set<Pair>, named: map<Key, set<Receipt>>, domains: map<ItemRef, set<Name>>) {
    && named.Keys == KeysIn(visited)
    && (forall k | k in named :: named[k] == NamingIn(visited, k))
    && domains.Keys == ItemsIn(visited)
    && (forall item | item in domains :: domains[item] == DomainsIn(visited, item))
  }

  /** The receipts that name each key, or None when one knowledge version appears under two domains. */
  method CollectTask(receipts: set<Receipt>) returns (r: Option<map<Key, set<Receipt>>>)
    ensures r.Some? <==> OneDomainPerItem(KeysOf(receipts))
    ensures r.Some? ==> r.value.Keys == KeysOf(receipts)
    ensures r.Some? ==> forall k | k in r.value :: r.value[k] == Naming(receipts, k)
  {
    var named: map<Key, set<Receipt>> := map[];
    var domains: map<ItemRef, set<Name>> := map[];
    var left := receipts;
    while left != {}
      invariant left <= receipts
      invariant Collected(Pairs(receipts - left), named, domains)
      decreases left
    {
      var receipt :| receipt in left;
      named, domains := CollectReceipt(receipt, named, domains, Pairs(receipts - left));
      assert Pairs(receipts - (left - {receipt})) == Pairs(receipts - left) + Tagged(receipt, receipt.items);
      left := left - {receipt};
    }
    assert receipts - left == receipts;
    CollectedMeaning(receipts, named, domains);
    var unchecked := domains.Keys;
    while unchecked != {}
      invariant unchecked <= domains.Keys
      invariant forall item | item in domains.Keys - unchecked :: |domains[item]| == 1
      decreases unchecked
    {
      var item :| item in unchecked;
      if |domains[item]| != 1 {
        return None;
      }
      unchecked := unchecked - {item};
    }
    r := Some(named);
  }

  method CollectReceipt(receipt: Receipt, named: map<Key, set<Receipt>>, domains: map<ItemRef, set<Name>>,
                        ghost before: set<Pair>)
    returns (named': map<Key, set<Receipt>>, domains': map<ItemRef, set<Name>>)
    requires Collected(before, named, domains)
    ensures Collected(before + Tagged(receipt, receipt.items), named', domains')
  {
    named', domains' := named, domains;
    assert before + Tagged(receipt, []) == before;
    for i := 0 to |receipt.items|
      invariant Collected(before + Tagged(receipt, receipt.items[..i]), named', domains')
    {
      ghost var visited := before + Tagged(receipt, receipt.items[..i]);
      var item := receipt.items[i];
      var key := KeyOf(item, receipt.domain);
      CollectedGrows(visited, named', domains', receipt, item);
      domains' := domains'[item := (if item in domains' then domains'[item] else {}) + {receipt.domain}];
      named' := named'[key := (if key in named' then named'[key] else {}) + {receipt}];
      TaggedGrows(before, receipt, i);
    }
    assert receipt.items[..|receipt.items|] == receipt.items;
  }

  lemma TaggedGrows(before: set<Pair>, receipt: Receipt, i: nat)
    requires i < |receipt.items|
    ensures before + Tagged(receipt, receipt.items[..i + 1])
            == before + Tagged(receipt, receipt.items[..i]) + {(receipt, receipt.items[i])}
  {
    assert receipt.items[..i + 1] == receipt.items[..i] + [receipt.items[i]];
  }

  lemma CollectedGrows(visited: set<Pair>, named: map<Key, set<Receipt>>, domains: map<ItemRef, set<Name>>,
                       receipt: Receipt, item: ItemRef)
    requires Collected(visited, named, domains)
    ensures var key := KeyOf(item, receipt.domain);
            Collected(visited + {(receipt, item)},
                      named[key := (if key in named then named[key] else {}) + {receipt}],
                      domains[item := (if item in domains then domains[item] else {}) + {receipt.domain}])
  {
    var key := KeyOf(item, receipt.domain);
    var grown := visited + {(receipt, item)};
    assert KeyOfPair((receipt, item)) == key;
    var newNamed := named[key := (if key in named then named[key] else {}) + {receipt}];
    forall k | k in newNamed ensures newNamed[k] == NamingIn(grown, k) {
      if k != key {
        assert NamingIn(grown, k) == NamingIn(visited, k);
      } else {
        assert NamingIn(grown, k) == NamingIn(visited, k) + {receipt};
      }
    }
    var newDomains := domains[item := (if item in domains then domains[item] else {}) + {receipt.domain}];
    forall x | x in newDomains ensures newDomains[x] == DomainsIn(grown, x) {
      if x != item {
        assert DomainsIn(grown, x) == DomainsIn(visited, x);
      } else {
        assert DomainsIn(grown, x) == DomainsIn(visited, x) + {receipt.domain};
      }
    }
  }

  lemma CollectedMeaning(receipts: set<Receipt>, named: map<Key, set<Receipt>>, domains: map<ItemRef, set<Name>>)
    requires Collected(Pairs(receipts), named, domains)
    ensures named.Keys == KeysOf(receipts)
    ensures forall k | k in named :: named[k] == Naming(receipts, k)
    ensures (forall item | item in domains :: |domains[item]| == 1) <==> OneDomainPerItem(KeysOf(receipts))
  {
    var pairs := Pairs(receipts);
    forall k ensures k in named.Keys <==> k in KeysOf(receipts) {
      if k in KeysOf(receipts) {
        var r, item :| r in receipts && item in r.items && KeyOf(item, r.domain) == k;
        assert (r, item) in pairs && KeyOfPair((r, item)) == k;
      }
    }
    forall k, r | k in named && r in Naming(receipts, k) ensures r in named[k] {
      assert (r, ItemOf(k)) in pairs && KeyOfPair((r, ItemOf(k))) == k;
    }
    DomainsMeaning(receipts, domains);
  }

  lemma DomainsMeaning(receipts: set<Receipt>, domains: map<ItemRef, set<Name>>)
    requires domains.Keys == ItemsIn(Pairs(receipts))
    requires forall item | item in domains :: domains[item] == DomainsIn(Pairs(receipts), item)
    ensures (forall item | item in domains :: |domains[item]| == 1) <==> OneDomainPerItem(KeysOf(receipts))
  {
    forall k | k in KeysOf(receipts) ensures ItemOf(k) in domains && k.domain in domains[ItemOf(k)] {
      var r, item :| r in receipts && item in r.items && KeyOf(item, r.domain) == k;
      assert (r, item) in Pairs(receipts);
    }
    forall item, d | item in domains && d in domains[item] ensures KeyOf(item, d) in KeysOf(receipts) {
      var p :| p in Pairs(receipts) && p.1 == item && p.0.domain == d;
    }
    if forall item | item in domains :: |domains[item]| == 1 {
      forall a, b | a in KeysOf(receipts) && b in KeysOf(receipts) && ItemOf(a) == ItemOf(b) ensures a == b {
        OnlyMember(domains[ItemOf(a)], a.domain, b.domain);
      }
    }
    if OneDomainPerItem(KeysOf(receipts)) {
      forall item | item in domains ensures |domains[item]| == 1 {
        var p :| p in Pairs(receipts) && p.1 == item;
        forall d | d in domains[item] ensures d == p.0.domain {
          assert KeyOf(item, d) in KeysOf(receipts) && KeyOf(item, p.0.domain) in KeysOf(receipts);
          assert ItemOf(KeyOf(item, d)) == ItemOf(KeyOf(item, p.0.domain));
        }
        assert domains[item] == {p.0.domain};
      }
    }
  }

  lemma OnlyMember<T>(s: set<T>, a: T, b: T)
    requires |s| == 1 && a in s && b in s
    ensures a == b
  {
    if a != b { SubsetSize({a, b}, s); }
  }

  // ---------- The counters of one key ----------

  const NO_CODES: map<Code, nat> :=
    map[VerifiedSuccess := 0, Failed := 0, WaitingHuman := 0, Pending := 0, DoneUnverified := 0]

  lemma EmptyCodesAreComplete()
    ensures forall c: Code :: c in NO_CODES && NO_CODES[c] == 0
  {
    forall c: Code ensures c in NO_CODES && NO_CODES[c] == 0 {
      match c case VerifiedSuccess => case Failed => case WaitingHuman => case Pending => case DoneUnverified =>
    }
  }

  function EmptyBucket(): (b: Bucket)
    ensures Wellformed(b)
    ensures forall c: Code :: b.all.outcomes[c] == 0 && b.alone == b.all
  {
    EmptyCodesAreComplete();
    Bucket({}, {}, 0, 0, Tally(NO_CODES, 0, 0), Tally(NO_CODES, 0, 0))
  }

  predicate Wellformed(bucket: Bucket) {
    Complete(bucket.all) && Complete(bucket.alone)
  }

  function Add(tally: Tally, o: Outcome): Tally
    requires Complete(tally)
  {
    Tally(tally.outcomes[o.code := tally.outcomes[o.code] + 1], tally.resolved + o.resolved, tally.passed + o.passed)
  }

  /** Count one task in a bucket. */
  function Observe(bucket: Bucket, t: Name, named: set<Receipt>, o: Observation): Bucket
    requires Wellformed(bucket)
  {
    var b := bucket.(tasks := bucket.tasks + {t}, receipts := bucket.receipts + named, all := Add(bucket.all, o.outcome));
    if o.isolated then
      b.(isolated := b.isolated + 1, alone := Add(b.alone, o.outcome))
    else
      b.(confounded := b.confounded + 1)
  }

  lemma CodeCountGrows(seen: map<Name, Observation>, s: set<Name>, t: Name, c: Code)
    requires t !in s && t in seen
    ensures CodeCount(seen, s + {t}, c) == CodeCount(seen, s, c) + if seen[t].outcome.code == c then 1 else 0
  {
    var was := set x | x in s && x in seen && seen[x].outcome.code == c;
    var now := set x | x in s + {t} && x in seen && seen[x].outcome.code == c;
    if seen[t].outcome.code == c {
      assert now == was + {t};
    } else {
      assert now == was;
    }
  }

  lemma TallyGrows(tally: Tally, seen: map<Name, Observation>, s: set<Name>, t: Name)
    requires TallyFor(tally, seen, s) && t !in s && t in seen
    ensures TallyFor(Add(tally, seen[t].outcome), seen, s + {t})
  {
    forall c: Code
      ensures CodeCount(seen, s + {t}, c) == CodeCount(seen, s, c) + if seen[t].outcome.code == c then 1 else 0
    {
      CodeCountGrows(seen, s, t, c);
    }
    SumSetInsert(s, ResolvedBy(seen), t);
    SumSetInsert(s, PassedBy(seen), t);
  }

  lemma ObserveKeepsBucket(bucket: Bucket, seen: map<Name, Observation>, s: set<Name>, before: set<Receipt>,
                           t: Name, named: set<Receipt>)
    requires BucketFor(bucket, seen, s, before) && t !in s && t in seen
    ensures BucketFor(Observe(bucket, t, named, seen[t]), seen, s + {t}, before + named)
  {
    TallyGrows(bucket.all, seen, s, t);
    IsolationGrows(seen, s, t);
    if seen[t].isolated {
      TallyGrows(bucket.alone, seen, IsolatedIn(seen, s), t);
    }
  }

  lemma IsolationGrows(seen: map<Name, Observation>, s: set<Name>, t: Name)
    requires t !in s && t in seen
    ensures IsolatedIn(seen, s + {t}) == if seen[t].isolated then IsolatedIn(seen, s) + {t} else IsolatedIn(seen, s)
    ensures t !in IsolatedIn(seen, s)
  {
  }

  lemma EmptyBucketFor(seen: map<Name, Observation>)
    ensures BucketFor(EmptyBucket(), seen, {}, {})
  {
  }

  // ---------- The table of all keys ----------

  /** Every bucket counts the visited tasks that reused its key. */
  ghost predicate TableFor(table: map<Key, Bucket>, receipts: set<Receipt>, seen: map<Name, Observation>, visited: set<Name>) {
    && (forall k :: k in table <==> TasksWith(receipts, k) * visited != {})
    && (forall k | k in table ::
          BucketFor(table[k], seen, TasksWith(receipts, k) * visited, NamedIn(receipts, k, visited)))
  }

  ghost function NamedIn(receipts: set<Receipt>, key: Key, visited: set<Name>): set<Receipt> {
    set r | r in Naming(receipts, key) && r.taskId in visited
  }

  function BucketAt(table: map<Key, Bucket>, key: Key): (b: Bucket)
    ensures key !in table ==> Wellformed(b)
  {
    if key in table then table[key] else EmptyBucket()
  }

  /** Count one task under each of its keys. */
  method ObserveTask(table: map<Key, Bucket>, keys: seq<Key>, t: Name, named: map<Key, set<Receipt>>, o: Observation)
    returns (grown: map<Key, Bucket>)
    requires Distinct(keys) && forall k | k in keys :: k in named
    requires forall k | k in table :: Wellformed(table[k])
    ensures forall k :: k in grown <==> k in table || k in keys
    ensures forall k | k in keys :: CountedOnce(table, grown, k, t, named, o)
    ensures forall k | k in table && k !in keys :: grown[k] == table[k]
  {
    grown := table;
    ghost var counted: set<Key> := {};
    for i := 0 to |keys|
      invariant forall j | 0 <= j < |keys| :: keys[j] in counted <==> j < i
      invariant forall k | k in counted :: k in keys
      invariant forall k :: k in grown <==> k in table || k in counted
      invariant forall k | k in counted :: CountedOnce(table, grown, k, t, named, o)
      invariant forall k | k in table && k !in counted :: grown[k] == table[k]
    {
      var key := keys[i];
      grown := grown[key := Observe(BucketAt(table, key), t, named[key], o)];
      counted := counted + {key};
    }
  }

  ghost predicate CountedOnce(table: map<Key, Bucket>, grown: map<Key, Bucket>, k: Key, t: Name,
                              named: map<Key, set<Receipt>>, o: Observation)
  {
    && k in named && k in grown && Wellformed(BucketAt(table, k))
    && grown[k] == Observe(BucketAt(table, k), t, named[k], o)
  }

  lemma TableGrows(table: map<Key, Bucket>, receipts: set<Receipt>, seen: map<Name, Observation>, visited: set<Name>,
                   t: Name, named: map<Key, set<Receipt>>, grown: map<Key, Bucket>)
    requires TableFor(table, receipts, seen, visited) && t !in visited && t in seen && t in TaskIds(receipts)
    requires named.Keys == KeysOf(ReceiptsOf(receipts, t))
    requires forall k | k in named :: named[k] == Naming(ReceiptsOf(receipts, t), k)
    requires forall k | k in table :: Wellformed(table[k])
    requires forall k :: k in grown <==> k in table || k in named
    requires forall k | k in named :: CountedOnce(table, grown, k, t, named, seen[t])
    requires forall k | k in table && k !in named :: grown[k] == table[k]
    ensures TableFor(grown, receipts, seen, visited + {t})
  {
    forall k | k in grown
      ensures BucketFor(grown[k], seen, TasksWith(receipts, k) * (visited + {t}), NamedIn(receipts, k, visited + {t}))
    {
      if k in named {
        BucketGrows(table, receipts, seen, visited, t, k);
        assert CountedOnce(table, grown, k, t, named, seen[t]);
      } else {
        BucketStays(receipts, visited, t, k);
      }
    }
    forall k ensures k in grown <==> TasksWith(receipts, k) * (visited + {t}) != {} {
      TasksGrow(receipts, k, visited, t);
    }
  }

  /** A receipt in which a task names a key puts the task among those with the key. */
  lemma NamingPutsTask(receipts: set<Receipt>, k: Key, r: Receipt)
    requires r in Naming(receipts, k)
    ensures r.taskId in TasksWith(receipts, k) && k in KeysOf(ReceiptsOf(receipts, r.taskId))
  {
  }

  lemma TasksGrow(receipts: set<Receipt>, k: Key, visited: set<Name>, t: Name)
    requires t in TaskIds(receipts)
    ensures TasksWith(receipts, k) * (visited + {t}) ==
            TasksWith(receipts, k) * visited + if k in KeysOf(ReceiptsOf(receipts, t)) then {t} else {}
  {
  }

  lemma NamedGrows(receipts: set<Receipt>, k: Key, visited: set<Name>, t: Name)
    ensures NamedIn(receipts, k, visited + {t}) == NamedIn(receipts, k, visited) + Naming(ReceiptsOf(receipts, t), k)
    ensures k !in KeysOf(ReceiptsOf(receipts, t)) ==> Naming(ReceiptsOf(receipts, t), k) == {}
    ensures TasksWith(receipts, k) * visited == {} ==> NamedIn(receipts, k, visited) == {}
  {
    forall r | r in Naming(receipts, k)
      ensures r.taskId in TasksWith(receipts, k) && k in KeysOf(ReceiptsOf(receipts, r.taskId))
    {
      NamingPutsTask(receipts, k, r);
    }
    assert forall r | r in NamedIn(receipts, k, visited) :: r.taskId in TasksWith(receipts, k) * visited;
  }

  /** A bucket after one more task that reused its key. */
  lemma BucketGrows(table: map<Key, Bucket>, receipts: set<Receipt>, seen: map<Name, Observation>, visited: set<Name>,
                    t: Name, k: Key)
    requires k in table <==> TasksWith(receipts, k) * visited != {}
    requires k in table ==> BucketFor(table[k], seen, TasksWith(receipts, k) * visited, NamedIn(receipts, k, visited))
    requires t !in visited && t in seen && t in TaskIds(receipts) && k in KeysOf(ReceiptsOf(receipts, t))
    ensures Wellformed(BucketAt(table, k))
    ensures BucketFor(Observe(BucketAt(table, k), t, Naming(ReceiptsOf(receipts, t), k), seen[t]), seen,
                      TasksWith(receipts, k) * (visited + {t}), NamedIn(receipts, k, visited + {t}))
  {
    var s, named := TasksWith(receipts, k) * visited, NamedIn(receipts, k, visited);
    TasksGrow(receipts, k, visited, t);
    NamedGrows(receipts, k, visited, t);
    if k !in table { EmptyBucketFor(seen); }
    ObserveKeepsBucket(BucketAt(table, k), seen, s, named, t, Naming(ReceiptsOf(receipts, t), k));
  }

  /** Another task leaves what a bucket must hold as it was. */
  lemma BucketStays(receipts: set<Receipt>, visited: set<Name>, t: Name, k: Key)
    requires t in TaskIds(receipts) && k !in KeysOf(ReceiptsOf(receipts, t))
    ensures TasksWith(receipts, k) * (visited + {t}) == TasksWith(receipts, k) * visited
    ensures NamedIn(receipts, k, visited + {t}) == NamedIn(receipts, k, visited)
  {
    TasksGrow(receipts, k, visited, t);
    NamedGrows(receipts, k, visited, t);
  }

  // ---------- The snapshot ----------

  function SignalOf(key: Key, b: Bucket): Signal
    requires Wellformed(b)
  {
    var out, alone := b.all.outcomes, b.alone.outcomes;
    Signal(key, |b.tasks|, |b.receipts|, b.isolated, b.confounded,
           out[VerifiedSuccess], out[Failed], out[WaitingHuman], out[Pending], out[DoneUnverified],
           alone[VerifiedSuccess], alone[Failed], alone[WaitingHuman], alone[DoneUnverified],
           Advise(key.domain, alone[VerifiedSuccess], alone[Failed], alone[WaitingHuman], alone[DoneUnverified]),
           b.all.resolved, b.all.passed, b.alone.resolved, b.alone.passed)
  }

  lemma KeysHaveTasks(receipts: set<Receipt>, k: Key)
    ensures k in KeysOf(receipts) <==> TasksWith(receipts, k) * TaskIds(receipts) != {}
  {
    if k in KeysOf(receipts) {
      var r, item :| r in receipts && item in r.items && KeyOf(item, r.domain) == k;
      NamingPutsTask(receipts, k, r);
      assert r.taskId in TasksWith(receipts, k) * TaskIds(receipts);
    }
    if t :| t in TasksWith(receipts, k) * TaskIds(receipts) {
      var r, item :| r in ReceiptsOf(receipts, t) && item in r.items && KeyOf(item, r.domain) == k;
      assert r in receipts;
    }
  }

  lemma KeysAtTheEnd(table: map<Key, Bucket>, receipts: set<Receipt>, seen: map<Name, Observation>)
    requires TableFor(table, receipts, seen, TaskIds(receipts))
    ensures table.Keys == KeysOf(receipts)
  {
    forall k ensures k in table.Keys <==> k in KeysOf(receipts) {
      KeysHaveTasks(receipts, k);
    }
  }

  lemma SignalsAtTheEnd(table: map<Key, Bucket>, receipts: set<Receipt>, seen: map<Name, Observation>)
    requires TableFor(table, receipts, seen, TaskIds(receipts))
    ensures forall k | k in table :: Wellformed(table[k]) && SignalFor(SignalOf(k, table[k]), seen, receipts)
  {
    forall k | k in table ensures Wellformed(table[k]) && SignalFor(SignalOf(k, table[k]), seen, receipts) {
      SignalFromBucket(table[k], k, receipts, seen);
    }
  }

  lemma SignalFromBucket(b: Bucket, k: Key, receipts: set<Receipt>, seen: map<Name, Observation>)
    requires BucketFor(b, seen, TasksWith(receipts, k) * TaskIds(receipts), NamedIn(receipts, k, TaskIds(receipts)))
    ensures Wellformed(b) && SignalFor(SignalOf(k, b), seen, receipts)
  {
    assert TasksWith(receipts, k) * TaskIds(receipts) == TasksWith(receipts, k);
    assert NamedIn(receipts, k, TaskIds(receipts)) == Naming(receipts, k);
  }

  method EmitSignals(table: map<Key, Bucket>, keys: seq<Key>) returns (signals: seq<Signal>)
    requires forall k | k in keys :: k in table && Wellformed(table[k])
    ensures KeyList(signals) == keys
    ensures forall signal | signal in signals :: signal.key in table && Wellformed(table[signal.key]) &&
                                                  signal == SignalOf(signal.key, table[signal.key])
  {
    signals := [];
    for i := 0 to |keys|
      invariant |signals| == i
      invariant forall j | 0 <= j < i :: signals[j] == SignalOf(keys[j], table[keys[j]])
    {
      signals := signals + [SignalOf(keys[i], table[keys[i]])];
    }
  }

  /** One pass of the task loop: check the task's domains, look up its outcome, count it under its keys. */
  method CountTask(table: map<Key, Bucket>, t: Name, receipts: set<Receipt>, tasks: map<Name, TaskView>,
                   ghost visited: set<Name>)
    returns (r: Result<map<Key, Bucket>, EffectivenessError>)
    requires TableFor(table, receipts, Observations(receipts, tasks), visited)
    requires t !in visited && t in TaskIds(receipts)
    ensures r.Ok? <==> OneDomainPerItem(KeysOf(ReceiptsOf(receipts, t))) && t in tasks
    ensures r.Ok? ==> TableFor(r.value, receipts, Observations(receipts, tasks), visited + {t})
    ensures r.Err? ==> r.error == (if OneDomainPerItem(KeysOf(ReceiptsOf(receipts, t))) then TaskUnknown else DomainConflict)
  {
    var collected := CollectTask(ReceiptsOf(receipts, t));
    if collected.None? {
      return Err(DomainConflict);
    }
    if t !in tasks {
      return Err(TaskUnknown);
    }
    var named := collected.value;
    var items := set k | k in named.Keys :: ItemOf(k);
    ItemsOfKeys(ReceiptsOf(receipts, t));
    ByKeyIsTotal();
    var keys := Sort(named.Keys, ByKey());
    assert forall k | k in keys :: k in named;
    var grown := ObserveTask(table, keys, t, named, Observation(OutcomeOf(tasks[t]), |items| <= 1));
    TableGrows(table, receipts, Observations(receipts, tasks), visited, t, named, grown);
    r := Ok(grown);
  }

  /** Join the reuse receipts with the outcomes of their tasks. */
  method TakeSnapshot(rows: seq<Activity>, tasks: map<Name, TaskView>) returns (r: Result<Snapshot, EffectivenessError>)
    ensures r.Ok? <==> (forall row | row in rows :: CleanRow(row)) && Consistent(ReceiptsIn(rows)) &&
                       TaskIds(ReceiptsIn(rows)) <= tasks.Keys
    ensures r.Ok? ==> SnapshotFor(r.value, ReceiptsIn(rows), tasks) && SnapshotMeans(r.value, ReceiptsIn(rows), tasks)
    ensures r.Err? && r.error in {ReceiptInvalid, TaskMismatch} <==> exists row :: row in rows && !CleanRow(row)
    ensures r == Err(DomainConflict) ==> !Consistent(ReceiptsIn(rows))
    ensures r == Err(TaskUnknown) ==> !(TaskIds(ReceiptsIn(rows)) <= tasks.Keys)
    ensures r != Err(ReceiptIdCollision)
  {
    var collected := CollectReceipts(rows);
    if collected.Err? {
      return Err(collected.error);
    }
    r := SnapshotOfReceipts(collected.value, tasks);
    if r.Ok? {
      SnapshotMeaning(r.value, ReceiptsIn(rows), tasks);
    }
  }

  /** The task loop: every task in the order of its name. */
  method CountTasks(receipts: set<Receipt>, tasks: map<Name, TaskView>)
    returns (r: Result<map<Key, Bucket>, EffectivenessError>)
    ensures r.Ok? <==> Consistent(receipts) && TaskIds(receipts) <= tasks.Keys
    ensures r.Ok? ==> TableFor(r.value, receipts, Observations(receipts, tasks), TaskIds(receipts))
    ensures r == Err(DomainConflict) ==> !Consistent(receipts)
    ensures r == Err(TaskUnknown) ==> !(TaskIds(receipts) <= tasks.Keys)
    ensures r.Err? ==> r.error in {DomainConflict, TaskUnknown}
  {
    ByNameIsTotal();
    var order := Sort(TaskIds(receipts), ByName());
    var table: map<Key, Bucket> := map[];
    EmptyTable(receipts, Observations(receipts, tasks));
    assert NamesOf(order[..0]) == {};
    for i := 0 to |order|
      invariant forall j | 0 <= j < i :: order[j] in tasks && OneDomainPerItem(KeysOf(ReceiptsOf(receipts, order[j])))
      invariant TableFor(table, receipts, Observations(receipts, tasks), NamesOf(order[..i]))
    {
      assert order[i] in order;
      var counted := CountTask(table, order[i], receipts, tasks, NamesOf(order[..i]));
      if counted.Err? {
        return Err(counted.error);
      }
      table := counted.value;
      assert NamesOf(order[..i + 1]) == NamesOf(order[..i]) + {order[i]};
    }
    assert order[..|order|] == order;
    assert NamesOf(order) == TaskIds(receipts);
    r := Ok(table);
  }

  lemma EmptyTable(receipts: set<Receipt>, seen: map<Name, Observation>)
    ensures TableFor(map[], receipts, seen, {})
  {
  }

  method SnapshotOfReceipts(receipts: set<Receipt>, tasks: map<Name, TaskView>)
    returns (r: Result<Snapshot, EffectivenessError>)
    ensures r.Ok? <==> Consistent(receipts) && TaskIds(receipts) <= tasks.Keys
    ensures r.Ok? ==> SnapshotFor(r.value, receipts, tasks)
    ensures r == Err(DomainConflict) ==> !Consistent(receipts)
    ensures r == Err(TaskUnknown) ==> !(TaskIds(receipts) <= tasks.Keys)
    ensures r.Err? ==> r.error in {DomainConflict, TaskUnknown}
  {
    var counted := CountTasks(receipts, tasks);
    if counted.Err? {
      return Err(counted.error);
    }
    ghost var seen := Observations(receipts, tasks);
    KeysAtTheEnd(counted.value, receipts, seen);
    SignalsAtTheEnd(counted.value, receipts, seen);
    ByKeyIsTotal();
    var keys := Sort(counted.value.Keys, ByKey());
    var signals := EmitSignals(counted.value, keys);
    r := Ok(Snapshot(signals, |receipts|, |TaskIds(receipts)|));
  }

  lemma ItemsOfKeys(receipts: set<Receipt>)
    ensures (set k | k in KeysOf(receipts) :: ItemOf(k)) == ItemsOf(receipts)
  {
    forall item | item in ItemsOf(receipts) ensures item in (set k | k in KeysOf(receipts) :: ItemOf(k)) {
      var r :| r in receipts && item in r.items;
      assert KeyOf(item, r.domain) in KeysOf(receipts) && ItemOf(KeyOf(item, r.domain)) == item;
    }
  }
}
