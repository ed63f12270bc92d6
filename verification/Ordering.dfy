/** Python's ordering of strings and tuples, and sorting of finite sets by it. */
module Ordering {

  /** Lexicographic order by code points. */
  predicate AtMost(a: string, b: string) {
    a == [] || (b != [] && (a[0] < b[0] || (a[0] == b[0] && AtMost(a[1..], b[1..]))))
  }

  lemma {:induction false} AtMostTotal(a: string, b: string)
    ensures AtMost(a, b) || AtMost(b, a)
  {
    if a != [] && b != [] { AtMostTotal(a[1..], b[1..]); }
  }

  lemma {:induction false} AtMostAntisymmetric(a: string, b: string)
    requires AtMost(a, b) && AtMost(b, a)
    ensures a == b
  {
    if a != [] && b != [] {
      AtMostAntisymmetric(a[1..], b[1..]);
      assert a == [a[0]] + a[1..] && b == [b[0]] + b[1..];
    }
  }

  lemma {:induction false} AtMostTransitive(a: string, b: string, c: string)
    requires AtMost(a, b) && AtMost(b, c)
    ensures AtMost(a, c)
  {
    if a != [] && a[0] == b[0] == c[0] { AtMostTransitive(a[1..], b[1..], c[1..]); }
  }

  ghost predicate TotalOrder<K(!new)>(leq: (K, K) -> bool) {
    && (forall a, b :: leq(a, b) || leq(b, a))
    && (forall a, b :: leq(a, b) && leq(b, a) ==> a == b)
    && (forall a, b, c :: leq(a, b) && leq(b, c) ==> leq(a, c))
  }

  /** Strictly increasing. */
  ghost predicate Ascending<K>(keys: seq<K>, leq: (K, K) -> bool) {
    forall i, j | 0 <= i < j < |keys| :: leq(keys[i], keys[j]) && keys[i] != keys[j]
  }

  ghost predicate SortedSetOf<K(!new)>(keys: seq<K>, s: set<K>, leq: (K, K) -> bool) {
    Ascending(keys, leq) && (forall k :: k in keys <==> k in s)
  }

  /** A finite set has only one sorted listing. */
  lemma {:induction false} SortedListingIsUnique<K(!new)>(p: seq<K>, q: seq<K>, s: set<K>, leq: (K, K) -> bool)
    requires TotalOrder(leq) && SortedSetOf(p, s, leq) && SortedSetOf(q, s, leq)
    ensures p == q
  {
    assert q == [] || q[0] in p;
    if p != [] {
      assert p[0] in q;
      assert q[0] in p;
      var i :| 0 <= i < |p| && p[i] == q[0];
      var j :| 0 <= j < |q| && q[j] == p[0];
      assert p[0] == q[0];
      TailIsSorted(p, s, leq);
      TailIsSorted(q, s, leq);
      SortedListingIsUnique(p[1..], q[1..], s - {p[0]}, leq);
      assert p == [p[0]] + p[1..] && q == [q[0]] + q[1..];
    }
  }

  lemma TailIsSorted<K(!new)>(p: seq<K>, s: set<K>, leq: (K, K) -> bool)
    requires p != [] && SortedSetOf(p, s, leq)
    ensures SortedSetOf(p[1..], s - {p[0]}, leq)
  {
  }

  /** Python's `sorted` of distinct keys: an insertion sort. */
  method Sort<K(!new, ==)>(s: set<K>, leq: (K, K) -> bool) returns (keys: seq<K>)
    requires TotalOrder(leq)
    ensures SortedSetOf(keys, s, leq)
  {
    keys := [];
    var left := s;
    while left != {}
      invariant left <= s
      invariant SortedSetOf(keys, s - left, leq)
      decreases left
    {
      var k :| k in left;
      var at := 0;
      while at < |keys| && leq(keys[at], k)
        invariant at <= |keys|
        invariant forall i | 0 <= i < at :: leq(keys[i], k)
      {
        at := at + 1;
      }
      assert k !in keys;
      ghost var was := keys;
      keys := keys[..at] + [k] + keys[at..];
      InsertionKeepsSorted(was, s - left, k, at, leq);
      left := left - {k};
      assert s - left == (s - (left + {k})) + {k};
    }
    assert s - left == s;
  }

  /** Every finite set has a sorted listing. */
  lemma {:induction false} SortedListingExists<K(!new)>(s: set<K>, leq: (K, K) -> bool) returns (keys: seq<K>)
    requires TotalOrder(leq)
    ensures SortedSetOf(keys, s, leq)
  {
    if s == {} {
      keys := [];
    } else {
      var k :| k in s;
      var rest := SortedListingExists(s - {k}, leq);
      var at := 0;
      while at < |rest| && leq(rest[at], k)
        invariant at <= |rest|
        invariant forall i | 0 <= i < at :: leq(rest[i], k)
      {
        at := at + 1;
      }
      InsertionKeepsSorted(rest, s - {k}, k, at, leq);
      keys := rest[..at] + [k] + rest[at..];
      assert s - {k} + {k} == s;
    }
  }

  lemma InsertionKeepsSorted<K(!new)>(keys: seq<K>, s: set<K>, k: K, at: nat, leq: (K, K) -> bool)
    requires TotalOrder(leq) && SortedSetOf(keys, s, leq) && k !in s && at <= |keys|
    requires forall i | 0 <= i < at :: leq(keys[i], k)
    requires at < |keys| ==> !leq(keys[at], k)
    ensures SortedSetOf(keys[..at] + [k] + keys[at..], s + {k}, leq)
  {
  }

  ghost predicate Preorder<K(!new)>(leq: (K, K) -> bool) {
    && (forall a, b :: leq(a, b) || leq(b, a))
    && (forall a, b, c :: leq(a, b) && leq(b, c) ==> leq(a, c))
  }

  ghost predicate InOrder<K>(xs: seq<K>, leq: (K, K) -> bool) {
    forall i, j | 0 <= i < j < |xs| :: leq(xs[i], xs[j])
  }

  /** Python's stable `sorted`: an ordered permutation, and the list itself if it was in order. */
  method StableSort<K(!new)>(xs: seq<K>, leq: (K, K) -> bool) returns (r: seq<K>)
    requires Preorder(leq)
    ensures multiset(r) == multiset(xs) && InOrder(r, leq)
    ensures InOrder(xs, leq) ==> r == xs
  {
    r := [];
    for i := 0 to |xs|
      invariant multiset(r) == multiset(xs[..i]) && InOrder(r, leq)
      invariant |r| == i && (InOrder(xs, leq) ==> r == xs[..i])
    {
      var at := 0;
      while at < |r| && leq(r[at], xs[i])
        invariant at <= |r|
        invariant forall k | 0 <= k < at :: leq(r[k], xs[i])
      {
        at := at + 1;
      }
      InsertKeepsOrder(r, xs[i], at, leq);
      InsertAdds(r, xs[i], at);
      assert InOrder(xs, leq) ==> at == |r|;
      r := r[..at] + [xs[i]] + r[at..];
      assert xs[..i + 1] == xs[..i] + [xs[i]];
    }
    assert xs[..|xs|] == xs;
  }

  lemma InsertAdds<K>(r: seq<K>, x: K, at: nat)
    requires at <= |r|
    ensures multiset(r[..at] + [x] + r[at..]) == multiset(r) + multiset{x}
  {
    assert r == r[..at] + r[at..];
  }

  lemma InsertKeepsOrder<K(!new)>(r: seq<K>, x: K, at: nat, leq: (K, K) -> bool)
    requires Preorder(leq) && InOrder(r, leq) && at <= |r|
    requires forall k | 0 <= k < at :: leq(r[k], x)
    requires at < |r| ==> !leq(r[at], x)
    ensures InOrder(r[..at] + [x] + r[at..], leq)
  {
    forall k | at <= k < |r| ensures leq(x, r[k]) {
      assert leq(x, r[at]);
    }
  }

  /** The order of strings as a function value, and that it is total. */
  function ByName(): (string, string) -> bool {
    (a, b) => AtMost(a, b)
  }

  lemma ByNameIsTotal()
    ensures TotalOrder(ByName())
  {
    var leq := ByName();
    forall a, b ensures leq(a, b) || leq(b, a) { AtMostTotal(a, b); }
    forall a, b | leq(a, b) && leq(b, a) ensures a == b { AtMostAntisymmetric(a, b); }
    forall a, b, c | leq(a, b) && leq(b, c) ensures leq(a, c) { AtMostTransitive(a, b, c); }
  }
}
