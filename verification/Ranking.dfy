/**
  Rankings and their quality at a cut-off. Scores and gains are reals; the discount is any
  strictly decreasing positive gain by position, of which 1 / log2(position + 1) is one.
*/
module Ranking {
  import opened Counting
  import opened Ordering

  type DocId = string

  datatype Scored = Scored(score: real, id: DocId)

  // ---------- Rankers ----------

  /** Higher scores first, ties by id. */
  predicate RankedBefore(a: Scored, b: Scored) {
    a.score > b.score || (a.score == b.score && AtMost(a.id, b.id))
  }

  function ByRank(): (Scored, Scored) -> bool {
    (a, b) => RankedBefore(a, b)
  }

  lemma RankedBeforeIsTotal(a: Scored, b: Scored, c: Scored)
    ensures RankedBefore(a, b) || RankedBefore(b, a)
    ensures RankedBefore(a, b) && RankedBefore(b, a) ==> a == b
    ensures RankedBefore(a, b) && RankedBefore(b, c) ==> RankedBefore(a, c)
  {
    AtMostTotal(a.id, b.id);
    if AtMost(a.id, b.id) && AtMost(b.id, a.id) { AtMostAntisymmetric(a.id, b.id); }
    if AtMost(a.id, b.id) && AtMost(b.id, c.id) { AtMostTransitive(a.id, b.id, c.id); }
  }

  lemma ByRankIsPreorder()
    ensures Preorder(ByRank())
  {
    var leq := ByRank();
    forall a, b ensures leq(a, b) || leq(b, a) { RankedBeforeIsTotal(a, b, b); }
    forall a, b, c | leq(a, b) && leq(b, c) ensures leq(a, c) { RankedBeforeIsTotal(a, b, c); }
  }

  function IdsOf(scored: seq<Scored>): seq<DocId> {
    seq(|scored|, i requires 0 <= i < |scored| => scored[i].id)
  }

  lemma HeadAndTail(p: seq<Scored>)
    requires p != []
    ensures multiset(p) == multiset(p[1..]) + multiset{p[0]}
  {
    assert p == [p[0]] + p[1..];
  }

  lemma TailsPermute(p: seq<Scored>, q: seq<Scored>)
    requires multiset(p) == multiset(q) && p != [] && q != [] && p[0] == q[0]
    ensures multiset(p[1..]) == multiset(q[1..])
  {
    HeadAndTail(p);
    HeadAndTail(q);
    MultisetCancels(multiset(p[1..]), multiset(q[1..]), multiset{p[0]});
  }

  /** Two sorted arrangements of the same scores are equal. */
  lemma {:induction false} SortedIsUnique(p: seq<Scored>, q: seq<Scored>)
    requires multiset(p) == multiset(q) && InOrder(p, ByRank()) && InOrder(q, ByRank())
    ensures p == q
  {
    if p == [] {
      assert |multiset(q)| == 0;
    } else {
      assert p[0] in multiset(q) && |multiset(q)| > 0;
      assert q[0] in multiset(p);
      var i :| 0 <= i < |p| && p[i] == q[0];
      var j :| 0 <= j < |q| && q[j] == p[0];
      assert i == 0 || ByRank()(p[0], q[0]);
      assert j == 0 || ByRank()(q[0], p[0]);
      RankedBeforeIsTotal(p[0], q[0], q[0]);
      assert p[0] == q[0];
      TailsPermute(p, q);
      SortedIsUnique(p[1..], q[1..]);
      assert p == [p[0]] + p[1..] && q == [q[0]] + q[1..];
    }
  }

  datatype Document = Document(id: DocId, tokens: set<string>)

  /** Jaccard similarity of token sets. */
  function Similarity(query: set<string>, tokens: set<string>): real {
    var all := query + tokens;
    if all == {} then 0.0 else |query * tokens| as real / |all| as real
  }

  function LexicalScores(query: set<string>, documents: seq<Document>): seq<Scored> {
    seq(|documents|, i requires 0 <= i < |documents| => Scored(Similarity(query, documents[i].tokens), documents[i].id))
  }

  function DocumentIds(documents: seq<Document>): seq<DocId> {
    seq(|documents|, i requires 0 <= i < |documents| => documents[i].id)
  }

  /** The ranking is the ids of an ordered arrangement of the scores. */
  ghost predicate RankingOf(ranking: seq<DocId>, scores: seq<Scored>) {
    exists arranged :: multiset(arranged) == multiset(scores) && InOrder(arranged, ByRank()) && ranking == IdsOf(arranged)
  }

  method LexicalRank(query: set<string>, documents: seq<Document>) returns (ranking: seq<DocId>)
    ensures RankingOf(ranking, LexicalScores(query, documents))
    ensures multiset(ranking) == multiset(DocumentIds(documents))
    ensures Distinct(DocumentIds(documents)) ==> Distinct(ranking)
  {
    var scored: seq<Scored> := [];
    for i := 0 to |documents|
      invariant scored == LexicalScores(query, documents[..i])
    {
      scored := scored + [Scored(Similarity(query, documents[i].tokens), documents[i].id)];
    }
    assert documents[..|documents|] == documents;
    ByRankIsPreorder();
    var arranged := StableSort(scored, ByRank());
    ranking := IdsOf(arranged);
    RankingKeepsIds(arranged, scored);
    assert IdsOf(scored) == DocumentIds(documents);
  }

  function Dot(a: seq<real>, b: seq<real>): real {
    if a == [] || b == [] then 0.0 else a[0] * b[0] + Dot(a[1..], b[1..])
  }

  /** The sum of the products of the coordinates, read from the other end. */
  lemma {:induction false} DotMeaning(a: seq<real>, b: seq<real>, x: real, y: real)
    requires |a| == |b|
    ensures Dot(a + [x], b + [y]) == Dot(a, b) + x * y
  {
    if a != [] {
      assert (a + [x])[1..] == a[1..] + [x] && (b + [y])[1..] == b[1..] + [y];
      DotMeaning(a[1..], b[1..], x, y);
    } else {
      assert Dot([x], [y]) == x * y + Dot([x][1..], [y][1..]);
    }
  }

  ghost function CosineScores(query: seq<real>, vectors: map<DocId, seq<real>>, order: seq<DocId>): seq<Scored>
    requires forall id | id in order :: id in vectors
  {
    seq(|order|, i requires 0 <= i < |order| => Scored(Dot(query, vectors[order[i]]), order[i]))
  }

  /** `order` is the dictionary's iteration order, which turns out not to matter. */
  method CosineRank(query: seq<real>, vectors: map<DocId, seq<real>>, order: seq<DocId>) returns (ranking: seq<DocId>)
    requires Distinct(order) && forall id :: id in order <==> id in vectors
    ensures RankingOf(ranking, CosineScores(query, vectors, order))
    ensures Distinct(ranking) && forall id :: id in ranking <==> id in vectors
  {
    var scored: seq<Scored> := [];
    for i := 0 to |order|
      invariant scored == CosineScores(query, vectors, order[..i])
    {
      assert order[i] in order;
      scored := scored + [Scored(Dot(query, vectors[order[i]]), order[i])];
    }
    assert order[..|order|] == order;
    ByRankIsPreorder();
    var arranged := StableSort(scored, ByRank());
    ranking := IdsOf(arranged);
    RankingKeepsIds(arranged, scored);
    assert IdsOf(scored) == order;
    assert forall id :: id in ranking <==> id in multiset(ranking);
  }

  lemma Without(q: seq<Scored>, x: Scored) returns (rest: seq<Scored>)
    requires x in q
    ensures |rest| == |q| - 1
    ensures multiset(q) == multiset(rest) + multiset{x}
    ensures multiset(IdsOf(q)) == multiset(IdsOf(rest)) + multiset{x.id}
  {
    var j :| 0 <= j < |q| && q[j] == x;
    var left, right := q[..j], q[j + 1..];
    rest := left + right;
    assert q == left + [x] + right;
    assert IdsOf(q) == IdsOf(left) + [x.id] + IdsOf(right);
    assert IdsOf(rest) == IdsOf(left) + IdsOf(right);
  }

  lemma {:induction false} IdsPermute(p: seq<Scored>, q: seq<Scored>)
    requires multiset(p) == multiset(q)
    ensures multiset(IdsOf(p)) == multiset(IdsOf(q))
    decreases |p|
  {
    if p == [] {
      assert |multiset(q)| == 0;
    } else {
      var x := p[0];
      assert x in multiset(q);
      var a := Without(p, x);
      var b := Without(q, x);
      MultisetCancels(multiset(a), multiset(b), multiset{x});
      IdsPermute(a, b);
    }
  }

  lemma {:induction false} DistinctPermutes<T>(xs: seq<T>, ys: seq<T>)
    requires multiset(xs) == multiset(ys) && Distinct(xs)
    ensures Distinct(ys)
  {
    forall i, j | 0 <= i < j < |ys| ensures ys[i] != ys[j] {
      if ys[i] == ys[j] {
        assert ys == ys[..j] + [ys[j]] + ys[j + 1..];
        assert ys[i] in ys[..j];
        assert multiset(ys)[ys[i]] >= 2;
        DistinctOccursOnce(xs, ys[i]);
      }
    }
  }

  lemma {:induction false} DistinctOccursOnce<T>(xs: seq<T>, x: T)
    requires Distinct(xs)
    ensures multiset(xs)[x] <= 1
  {
    if xs != [] {
      var n := |xs| - 1;
      assert xs == xs[..n] + [xs[n]];
      DistinctOccursOnce(xs[..n], x);
      if xs[n] == x { assert x !in xs[..n]; }
    }
  }

  lemma RankingKeepsIds(arranged: seq<Scored>, scored: seq<Scored>)
    requires multiset(arranged) == multiset(scored)
    ensures multiset(IdsOf(arranged)) == multiset(IdsOf(scored))
    ensures Distinct(IdsOf(scored)) ==> Distinct(IdsOf(arranged))
  {
    IdsPermute(arranged, scored);
    if Distinct(IdsOf(scored)) { DistinctPermutes(IdsOf(scored), IdsOf(arranged)); }
  }

  /** The ranking depends on the scored documents only, not on the order in which they were listed. */
  lemma RankingIsDetermined(p: seq<DocId>, q: seq<DocId>, a: seq<Scored>, b: seq<Scored>)
    requires multiset(a) == multiset(b) && RankingOf(p, a) && RankingOf(q, b)
    ensures p == q
  {
    var x :| multiset(x) == multiset(a) && InOrder(x, ByRank()) && p == IdsOf(x);
    var y :| multiset(y) == multiset(b) && InOrder(y, ByRank()) && q == IdsOf(y);
    SortedIsUnique(x, y);
  }

  /** Of two ranked documents the earlier one has the higher score, or the same score and the smaller id. */
  lemma HigherScoresComeFirst(ranking: seq<DocId>, scores: seq<Scored>, i: nat, j: nat, a: Scored, b: Scored)
    requires RankingOf(ranking, scores) && Distinct(IdsOf(scores)) && i < j < |ranking|
    requires a in scores && b in scores && a.id == ranking[i] && b.id == ranking[j]
    ensures a.score >= b.score
    ensures a.score == b.score ==> AtMost(a.id, b.id)
  {
    var arranged :| multiset(arranged) == multiset(scores) && InOrder(arranged, ByRank()) && ranking == IdsOf(arranged);
    assert arranged[i] in multiset(arranged) && arranged[j] in multiset(arranged);
    IdDeterminesScore(scores, a, arranged[i]);
    IdDeterminesScore(scores, b, arranged[j]);
    assert ByRank()(arranged[i], arranged[j]);
  }

  lemma IdDeterminesScore(scores: seq<Scored>, a: Scored, b: Scored)
    requires Distinct(IdsOf(scores)) && a in scores && b in scores && a.id == b.id
    ensures a == b
  {
    var i :| 0 <= i < |scores| && scores[i] == a;
    var j :| 0 <= j < |scores| && scores[j] == b;
    assert IdsOf(scores)[i] == IdsOf(scores)[j];
  }

  /** Similarity is symmetric and lies in [0, 1]; 0 means nothing in common, 1 the same tokens. */
  lemma SimilarityMeaning(query: set<string>, tokens: set<string>)
    ensures 0.0 <= Similarity(query, tokens) <= 1.0 && Similarity(query, tokens) == Similarity(tokens, query)
    ensures Similarity(query, tokens) == 0.0 <==> query * tokens == {}
    ensures Similarity(query, tokens) == 1.0 <==> query == tokens && query != {}
  {
    var common, all := query * tokens, query + tokens;
    assert tokens + query == all && tokens * query == common;
    SubsetSize(common, all);
    if all != {} {
      Quotient(|common| as real, |all| as real);
      if |common| == |all| {
        assert all == common + (all - common);
        assert query == tokens;
      }
      if query == tokens { assert common == all; }
    }
  }

  // ---------- Metrics ----------

  /** A strictly decreasing positive gain by position, positions counted from 1. */
  ghost predicate Discount(gain: nat -> real) {
    && (forall i: nat :: gain(i) > 0.0)
    && (forall i: nat, j: nat | i < j :: gain(i) > gain(j))
  }

  function Least(a: nat, b: nat): nat {
    if a < b then a else b
  }

  function Top(ranking: seq<DocId>, k: nat): seq<DocId> {
    ranking[..Least(k, |ranking|)]
  }

  /** The gain of the relevant entries of a list. */
  ghost function Gained(entries: seq<DocId>, relevant: set<DocId>, gain: nat -> real): real {
    if entries == [] then 0.0
    else
      var n := |entries|;
      Gained(entries[..n - 1], relevant, gain) + if entries[n - 1] in relevant then gain(n) else 0.0
  }

  /** The gain of positions 1 to n. */
  ghost function Ideal(n: nat, gain: nat -> real): real {
    if n == 0 then 0.0 else Ideal(n - 1, gain) + gain(n)
  }

  ghost function Ndcg(ranking: seq<DocId>, relevant: set<DocId>, k: nat, gain: nat -> real): real {
    var ideal := Ideal(Least(|relevant|, k), gain);
    if ideal == 0.0 then 0.0 else Gained(Top(ranking, k), relevant, gain) / ideal
  }

  /** Accumulate the discounted gain of the ranking and of the ideal. */
  method NdcgAtK(ranking: seq<DocId>, relevant: set<DocId>, k: nat, gain: nat -> real) returns (r: real)
    ensures r == Ndcg(ranking, relevant, k, gain)
  {
    var top := Top(ranking, k);
    var dcg := 0.0;
    for i := 0 to |top|
      invariant dcg == Gained(top[..i], relevant, gain)
    {
      assert top[..i + 1][..i] == top[..i];
      if top[i] in relevant {
        dcg := dcg + gain(i + 1);
      }
    }
    assert top[..|top|] == top;
    var idealHits := Least(|relevant|, k);
    var idcg := 0.0;
    for i := 0 to idealHits
      invariant idcg == Ideal(i, gain)
    {
      idcg := idcg + gain(i + 1);
    }
    r := if idcg != 0.0 then dcg / idcg else 0.0;
  }

  /** How many entries of a list are relevant. */
  ghost function Hits(entries: seq<DocId>, relevant: set<DocId>): nat {
    if entries == [] then 0
    else Hits(entries[..|entries| - 1], relevant) + if entries[|entries| - 1] in relevant then 1 else 0
  }

  function EntrySet(entries: seq<DocId>): set<DocId> {
    set e | e in entries
  }

  lemma {:induction false} HitsAreDistinct(entries: seq<DocId>, relevant: set<DocId>)
    requires Distinct(entries)
    ensures Hits(entries, relevant) == |EntrySet(entries) * relevant|
    ensures Hits(entries, relevant) <= |relevant| && Hits(entries, relevant) <= |entries|
  {
    if entries == [] {
      assert EntrySet(entries) * relevant == {};
    } else {
      var n := |entries| - 1;
      HitsAreDistinct(entries[..n], relevant);
      assert entries[n] !in EntrySet(entries[..n]);
      assert EntrySet(entries) == EntrySet(entries[..n]) + {entries[n]};
      HitsStep(EntrySet(entries[..n]), relevant, entries[n]);
      SubsetSize(EntrySet(entries) * relevant, relevant);
    }
  }

  lemma HitsStep(before: set<DocId>, relevant: set<DocId>, x: DocId)
    requires x !in before
    ensures |(before + {x}) * relevant| == |before * relevant| + if x in relevant then 1 else 0
  {
    assert (before + {x}) * relevant == before * relevant + if x in relevant then {x} else {};
  }

  /** All entries up to position h are relevant. */
  ghost predicate Filled(entries: seq<DocId>, relevant: set<DocId>, h: nat) {
    h <= |entries| && forall i | 0 <= i < h :: entries[i] in relevant
  }

  lemma {:induction false} IdealIsMonotone(m: nat, n: nat, gain: nat -> real)
    requires Discount(gain) && m <= n
    ensures Ideal(m, gain) <= Ideal(n, gain)
    ensures m < n ==> Ideal(m, gain) < Ideal(n, gain)
    ensures Ideal(m, gain) >= 0.0 && (m > 0 ==> Ideal(m, gain) > 0.0)
    decreases n
  {
    if m < n {
      IdealIsMonotone(m, n - 1, gain);
    } else if m > 0 {
      IdealIsMonotone(m - 1, m - 1, gain);
    }
  }

  /** Rearrangement: h hits gain at most what positions 1 to h gain, with equality only there. */
  lemma {:induction false} HitsGainAtMostIdeal(entries: seq<DocId>, relevant: set<DocId>, gain: nat -> real)
    requires Discount(gain)
    ensures var h := Hits(entries, relevant);
            && h <= |entries|
            && 0.0 <= Gained(entries, relevant, gain) <= Ideal(h, gain)
            && (Gained(entries, relevant, gain) == Ideal(h, gain) <==> Filled(entries, relevant, h))
  {
    if entries != [] {
      var n := |entries|;
      var before := entries[..n - 1];
      HitsGainAtMostIdeal(before, relevant, gain);
      var h := Hits(before, relevant);
      if entries[n - 1] in relevant {
        assert h + 1 <= n;
        if h + 1 < n {
          assert gain(n) < gain(h + 1);
          if Filled(entries, relevant, h + 1) {
            HitsOfFilled(entries[..n - 1], relevant, h + 1);
          }
        } else {
          assert Filled(entries, relevant, h + 1) <==> Filled(before, relevant, h);
        }
      } else {
        assert Filled(entries, relevant, h) <==> Filled(before, relevant, h);
      }
    }
  }

  lemma {:induction false} HitsOfFilled(entries: seq<DocId>, relevant: set<DocId>, h: nat)
    requires Filled(entries, relevant, h)
    ensures Hits(entries, relevant) >= h
  {
    if entries != [] {
      var n := |entries| - 1;
      HitsOfFilled(entries[..n], relevant, if h <= n then h else n);
    }
  }

  /**
    The metric lies in [0, 1], and is 1 exactly when something is sought and the first
    min(|relevant|, k) entries exist and are all relevant.
  */
  lemma NdcgIsBounded(ranking: seq<DocId>, relevant: set<DocId>, k: nat, gain: nat -> real)
    requires Distinct(ranking) && Discount(gain)
    ensures 0.0 <= Ndcg(ranking, relevant, k, gain) <= 1.0
    ensures Ndcg(ranking, relevant, k, gain) == 1.0 <==>
              Least(|relevant|, k) > 0 && Filled(ranking, relevant, Least(|relevant|, k))
  {
    var top, goal := Top(ranking, k), Least(|relevant|, k);
    HitsAreDistinct(top, relevant);
    HitsGainAtMostIdeal(top, relevant, gain);
    var hits := Hits(top, relevant);
    IdealIsMonotone(hits, goal, gain);
    IdealIsMonotone(goal, goal, gain);
    if goal > 0 {
      Quotient(Gained(top, relevant, gain), Ideal(goal, gain));
      if Filled(ranking, relevant, goal) {
        assert Filled(top, relevant, goal);
        HitsOfFilled(top, relevant, goal);
      }
      assert Filled(top, relevant, goal) ==> Filled(ranking, relevant, goal);
    }
  }

  lemma Quotient(a: real, b: real)
    requires 0.0 <= a <= b && b > 0.0
    ensures 0.0 <= a / b <= 1.0
    ensures a / b == 1.0 <==> a == b
  {
  }

  function RecallAtK(ranking: seq<DocId>, relevant: set<DocId>, k: nat): real {
    if relevant == {} then 0.0
    else |EntrySet(Top(ranking, k)) * relevant| as real / |relevant| as real
  }

  method ReciprocalRank(ranking: seq<DocId>, relevant: set<DocId>, k: nat) returns (r: real)
    ensures r == 0.0 <==> Hits(Top(ranking, k), relevant) == 0
    ensures r != 0.0 ==> exists i: nat | i < |Top(ranking, k)| ::
              && r == 1.0 / (i + 1) as real && Top(ranking, k)[i] in relevant
              && forall j | 0 <= j < i :: Top(ranking, k)[j] !in relevant
  {
    var top := Top(ranking, k);
    for i := 0 to |top|
      invariant Hits(top[..i], relevant) == 0
      invariant forall j | 0 <= j < i :: top[j] !in relevant
    {
      assert top[..i + 1][..i] == top[..i];
      if top[i] in relevant {
        HitsInclude(top, relevant, i);
        return 1.0 / (i + 1) as real;
      }
    }
    assert top[..|top|] == top;
    r := 0.0;
  }

  lemma {:induction false} HitsInclude(entries: seq<DocId>, relevant: set<DocId>, i: nat)
    requires i < |entries| && entries[i] in relevant
    ensures Hits(entries, relevant) >= 1
  {
    if i < |entries| - 1 { HitsInclude(entries[..|entries| - 1], relevant, i); }
  }

  /** At cut-offs that reach all relevant documents, perfect recall and perfect order are the metric's two halves. */
  lemma PerfectNdcgIsPerfectRecall(ranking: seq<DocId>, relevant: set<DocId>, k: nat, gain: nat -> real)
    requires Distinct(ranking) && Discount(gain) && relevant != {} && |relevant| <= k
    ensures Ndcg(ranking, relevant, k, gain) == 1.0 ==> RecallAtK(ranking, relevant, k) == 1.0
    ensures RecallAtK(ranking, relevant, k) == 1.0 <==> relevant <= EntrySet(Top(ranking, k))
  {
    PerfectRecall(ranking, relevant, k);
    if Ndcg(ranking, relevant, k, gain) == 1.0 {
      NdcgIsBounded(ranking, relevant, k, gain);
      var top := Top(ranking, k);
      HitsAreDistinct(top, relevant);
      HitsOfFilled(top, relevant, |relevant|);
      AllFound(EntrySet(top), relevant);
    }
  }

  lemma AllFound(entries: set<DocId>, relevant: set<DocId>)
    ensures |entries * relevant| >= |relevant| ==> relevant <= entries
  {
    assert relevant == entries * relevant + (relevant - entries);
  }

  lemma PerfectRecall(ranking: seq<DocId>, relevant: set<DocId>, k: nat)
    requires relevant != {}
    ensures RecallAtK(ranking, relevant, k) == 1.0 <==> relevant <= EntrySet(Top(ranking, k))
  {
    var found := EntrySet(Top(ranking, k)) * relevant;
    SubsetSize(found, relevant);
    AllFound(EntrySet(Top(ranking, k)), relevant);
    Quotient(|found| as real, |relevant| as real);
    if relevant <= EntrySet(Top(ranking, k)) { assert found == relevant; }
  }
}
