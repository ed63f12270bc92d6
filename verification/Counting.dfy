/** Finite sums and double counting over sets. */
module Counting {

  /** The sum of `g` over a sequence of keys. */
  ghost function SumBy<K>(keys: seq<K>, g: K -> nat): nat {
    if keys == [] then 0 else SumBy(keys[..|keys| - 1], g) + g(keys[|keys| - 1])
  }

  predicate Distinct<K(==)>(keys: seq<K>) {
    forall i, j | 0 <= i < j < |keys| :: keys[i] != keys[j]
  }

  lemma {:induction false} SumByAdds<K>(keys: seq<K>, f: K -> nat, g: K -> nat, h: K -> nat)
    requires forall k | k in keys :: h(k) == f(k) + g(k)
    ensures SumBy(keys, h) == SumBy(keys, f) + SumBy(keys, g)
  {
    if keys != [] {
      SumByAdds(keys[..|keys| - 1], f, g, h);
    }
  }

  lemma {:induction false} SumByCongruence<K>(keys: seq<K>, f: K -> nat, g: K -> nat)
    requires forall k | k in keys :: f(k) == g(k)
    ensures SumBy(keys, f) == SumBy(keys, g)
  {
    if keys != [] {
      SumByCongruence(keys[..|keys| - 1], f, g);
    }
  }

  lemma SubsetSize<T>(a: set<T>, b: set<T>)
    requires a <= b
    ensures |a| <= |b|
  {
    assert b == a + (b - a);
  }

  function SetOf<T>(xs: seq<T>): set<T> {
    set x | x in xs
  }

  lemma SetOfSnoc<T>(xs: seq<T>, x: T)
    ensures SetOf(xs + [x]) == SetOf(xs) + {x}
  {
  }

  lemma DistinctSnoc<T>(xs: seq<T>, x: T)
    ensures Distinct(xs + [x]) <==> Distinct(xs) && x !in xs
  {
    var grown := xs + [x];
    if x in xs {
      var i :| 0 <= i < |xs| && xs[i] == x;
      assert grown[i] == grown[|xs|];
    }
    if Distinct(grown) {
      assert forall i, j | 0 <= i < j < |xs| :: grown[i] == xs[i] && grown[j] == xs[j];
    }
  }

  /** Python's test for duplicates: the set of values is as large as the list. */
  lemma {:induction false} SizeMeansDistinct<T>(xs: seq<T>)
    ensures |SetOf(xs)| == |xs| <==> Distinct(xs)
    ensures |SetOf(xs)| <= |xs|
  {
    if xs != [] {
      var n := |xs| - 1;
      assert xs == xs[..n] + [xs[n]];
      SizeMeansDistinct(xs[..n]);
      SetOfSnoc(xs[..n], xs[n]);
      DistinctSnoc(xs[..n], xs[n]);
      if xs[n] in xs[..n] { assert SetOf(xs[..n]) + {xs[n]} == SetOf(xs[..n]); }
    }
  }

  /** In a list of lists that only grow, each is a prefix of every later one. */
  lemma {:induction false} PrefixesChain<T>(lists: seq<seq<T>>, a: nat, b: nat)
    requires a <= b < |lists| && forall i | 0 <= i < |lists| - 1 :: lists[i] <= lists[i + 1]
    ensures lists[a] <= lists[b]
  {
    if a < b { PrefixesChain(lists, a, b - 1); }
  }

  lemma RemoveAt<T>(xs: seq<T>, i: nat)
    requires i < |xs|
    ensures multiset(xs) == multiset(xs[..i] + xs[i + 1..]) + multiset{xs[i]}
  {
    assert xs == xs[..i] + [xs[i]] + xs[i + 1..];
  }

  lemma MultisetCancels<T>(a: multiset<T>, b: multiset<T>, c: multiset<T>)
    requires a + c == b + c
    ensures a == b
  {
    assert a == (a + c) - c;
    assert b == (b + c) - c;
  }

  /** The size of the part of `s` that `key` sends to each k. */
  ghost function PartSize<T(!new), K(!new)>(s: set<T>, key: T -> K): K -> nat {
    k => |Part(s, key, k)|
  }

  ghost function Part<T(!new), K(!new)>(s: set<T>, key: T -> K, k: K): set<T> {
    set t | t in s && key(t) == k
  }

  /** A set is partitioned by any function into distinct keys that cover it. */
  lemma {:induction false} PartitionCount<T(!new), K(!new)>(s: set<T>, key: T -> K, keys: seq<K>)
    requires Distinct(keys)
    requires forall t | t in s :: key(t) in keys
    ensures SumBy(keys, PartSize(s, key)) == |s|
  {
    if keys == [] {
      assert s == {};
    } else {
      var n := |keys| - 1;
      var last := keys[n];
      var rest := s - Part(s, key, last);
      PartitionCount(rest, key, keys[..n]);
      forall k | k in keys[..n] ensures PartSize(rest, key)(k) == PartSize(s, key)(k) {
        assert Part(rest, key, k) == Part(s, key, k);
      }
      SumByCongruence(keys[..n], PartSize(rest, key), PartSize(s, key));
      assert s == rest + Part(s, key, last);
    }
  }

  // ---------- Sums over sets ----------

  ghost function SumSet<T>(s: set<T>, f: T -> nat): nat {
    if s == {} then 0
    else
      var t :| t in s;
      f(t) + SumSet(s - {t}, f)
  }

  lemma {:induction false} SumSetPick<T>(s: set<T>, f: T -> nat, x: T)
    requires x in s
    ensures SumSet(s, f) == f(x) + SumSet(s - {x}, f)
    decreases |s|
  {
    var t :| t in s && SumSet(s, f) == f(t) + SumSet(s - {t}, f);
    if t != x {
      SumSetPick(s - {t}, f, x);
      SumSetPick(s - {x}, f, t);
      assert s - {t} - {x} == s - {x} - {t};
    }
  }

  lemma SumSetInsert<T>(s: set<T>, f: T -> nat, x: T)
    requires x !in s
    ensures SumSet(s + {x}, f) == SumSet(s, f) + f(x)
  {
    SumSetPick(s + {x}, f, x);
    assert s + {x} - {x} == s;
  }

  lemma {:induction false} SumSetAtMost<T>(s: set<T>, f: T -> nat, g: T -> nat)
    requires forall t | t in s :: f(t) <= g(t)
    ensures SumSet(s, f) <= SumSet(s, g)
  {
    if s != {} {
      var t :| t in s;
      SumSetPick(s, f, t);
      SumSetPick(s, g, t);
      SumSetAtMost(s - {t}, f, g);
    }
  }

  lemma {:induction false} SumSetCongruence<T>(s: set<T>, f: T -> nat, g: T -> nat)
    requires forall t | t in s :: f(t) == g(t)
    ensures SumSet(s, f) == SumSet(s, g)
  {
    SumSetAtMost(s, f, g);
    SumSetAtMost(s, g, f);
  }

  lemma {:induction false} SumSetSubset<T>(s: set<T>, u: set<T>, f: T -> nat)
    requires s <= u
    ensures SumSet(s, f) <= SumSet(u, f)
  {
    if s != {} {
      var t :| t in s;
      SumSetPick(s, f, t);
      SumSetPick(u, f, t);
      SumSetSubset(s - {t}, u - {t}, f);
    }
  }

  /** How many members of `s` are related to a key. */
  ghost function Degree<T(!new), K(!new)>(s: set<T>, related: T -> set<K>): K -> nat {
    k => |Touching(s, related, k)|
  }

  ghost function Touching<T(!new), K(!new)>(s: set<T>, related: T -> set<K>, k: K): set<T> {
    set t | t in s && k in related(t)
  }

  ghost function SizeOf<T(!new), K(!new)>(related: T -> set<K>): T -> nat {
    t => |related(t)|
  }

  /** Counting the pairs of a relation by keys or by members gives the same number. */
  lemma {:induction false} DoubleCount<T(!new), K(!new)>(s: set<T>, related: T -> set<K>, keys: seq<K>)
    requires Distinct(keys)
    requires forall t, k | t in s && k in related(t) :: k in keys
    ensures SumBy(keys, Degree(s, related)) == SumSet(s, SizeOf(related))
  {
    if s == {} {
      SumOfZeroes(keys, Degree(s, related));
    } else {
      var x :| x in s;
      DoubleCount(s - {x}, related, keys);
      SumSetPick(s, SizeOf(related), x);
      DegreeSplits(s, related, x, keys);
    }
  }

  lemma {:induction false} SumOfZeroes<K>(keys: seq<K>, f: K -> nat)
    requires forall k | k in keys :: f(k) == 0
    ensures SumBy(keys, f) == 0
  {
    if keys != [] { SumOfZeroes(keys[..|keys| - 1], f); }
  }

  ghost function Indicator<K(!new)>(a: set<K>): K -> nat {
    k => if k in a then 1 else 0
  }

  lemma DegreeSplits<T(!new), K(!new)>(s: set<T>, related: T -> set<K>, x: T, keys: seq<K>)
    requires x in s && Distinct(keys)
    requires forall k | k in related(x) :: k in keys
    ensures SumBy(keys, Degree(s, related)) == SumBy(keys, Degree(s - {x}, related)) + |related(x)|
  {
    forall k ensures Degree(s, related)(k) == Degree(s - {x}, related)(k) + Indicator(related(x))(k) {
      if k in related(x) {
        assert Touching(s, related, k) == Touching(s - {x}, related, k) + {x};
      } else {
        assert Touching(s, related, k) == Touching(s - {x}, related, k);
      }
    }
    SumByAdds(keys, Degree(s - {x}, related), Indicator(related(x)), Degree(s, related));
    SumOfIndicator(keys, related(x));
  }

  lemma {:induction false} SumOfIndicator<K(!new)>(keys: seq<K>, a: set<K>)
    requires Distinct(keys) && forall k | k in a :: k in keys
    ensures SumBy(keys, Indicator(a)) == |a|
  {
    if keys == [] {
      assert a == {};
    } else {
      var n := |keys| - 1;
      var rest := a - {keys[n]};
      SumOfIndicator(keys[..n], rest);
      forall k | k in keys[..n] ensures Indicator(a)(k) == Indicator(rest)(k) {
        var i :| 0 <= i < n && keys[i] == k;
      }
      SumByCongruence(keys[..n], Indicator(a), Indicator(rest));
    }
  }
}
