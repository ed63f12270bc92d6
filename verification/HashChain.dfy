/**
  Append-only hash chains, as used by the checkpoint journal, the store ledger and the
  contradiction index. A SHA-256 digest of a body linked to its predecessor is a term
  of an inductive datatype, so it is collision-free and never equal to the all-zero
  genesis value; nothing else about hashing is assumed.
*/
module HashChain {

  datatype Digest<P> = Genesis | Sha(body: P, previous: Digest<P>)

  /** A stored row: its body, the predecessor it names, and the digest it claims. */
  datatype Entry<P> = Entry(body: P, previous: Digest<P>, digest: Digest<P>)

  function Seal<P>(body: P, previous: Digest<P>): Entry<P> {
    Entry(body, previous, Sha(body, previous))
  }

  function Head<P>(entries: seq<Entry<P>>): Digest<P> {
    if entries == [] then Genesis else entries[|entries| - 1].digest
  }

  /** Row i names the digest of row i-1, and its own digest is recomputable. */
  predicate Links<P(==)>(entries: seq<Entry<P>>, i: nat)
    requires i < |entries|
  {
    && entries[i].previous == Head(entries[..i])
    && entries[i].digest == Sha(entries[i].body, entries[i].previous)
  }

  predicate Chained<P(==)>(entries: seq<Entry<P>>) {
    forall i | 0 <= i < |entries| :: Links(entries, i)
  }

  function Depth<P>(d: Digest<P>): nat {
    match d
    case Genesis => 0
    case Sha(_, previous) => 1 + Depth(previous)
  }

  lemma ChainedPrefix<P>(entries: seq<Entry<P>>, n: nat)
    requires Chained(entries) && n <= |entries|
    ensures Chained(entries[..n])
  {
    forall i | 0 <= i < n ensures Links(entries[..n], i) {
      assert Links(entries, i);
      assert entries[..n][..i] == entries[..i];
    }
  }

  lemma ChainedAppend<P>(entries: seq<Entry<P>>, body: P)
    requires Chained(entries)
    ensures Chained(entries + [Seal(body, Head(entries))])
    ensures Head(entries + [Seal(body, Head(entries))]) == Sha(body, Head(entries))
  {
    var grown := entries + [Seal(body, Head(entries))];
    forall i | 0 <= i < |grown| ensures Links(grown, i) {
      assert grown[..i] == entries[..i];
      if i < |entries| {
        assert Links(entries, i);
      } else {
        assert grown[..i] == entries;
      }
    }
  }

  lemma {:induction false} HeadDepth<P>(entries: seq<Entry<P>>)
    requires Chained(entries)
    ensures Depth(Head(entries)) == |entries|
  {
    if entries != [] {
      var n := |entries| - 1;
      ChainedPrefix(entries, n);
      HeadDepth(entries[..n]);
      assert Links(entries, n);
    }
  }

  /** The head digest alone determines the whole chain, row by row. */
  lemma {:induction false} HeadDeterminesChain<P>(a: seq<Entry<P>>, b: seq<Entry<P>>)
    requires Chained(a) && Chained(b)
    requires Head(a) == Head(b)
    ensures a == b
  {
    HeadDepth(a);
    HeadDepth(b);
    if a != [] {
      var n := |a| - 1;
      assert Links(a, n) && Links(b, n);
      ChainedPrefix(a, n);
      ChainedPrefix(b, n);
      HeadDeterminesChain(a[..n], b[..n]);
      assert a == a[..n] + [a[n]] && b == b[..n] + [b[n]];
    }
  }

  /** No head is ever seen twice while a chain grows. */
  lemma HeadsNeverRepeat<P>(entries: seq<Entry<P>>, i: nat, j: nat)
    requires Chained(entries)
    requires i < j <= |entries|
    ensures Head(entries[..i]) != Head(entries[..j])
  {
    ChainedPrefix(entries, i);
    ChainedPrefix(entries, j);
    HeadDepth(entries[..i]);
    HeadDepth(entries[..j]);
  }
}
