/** Which experiences make a candidate, and what its lineage lists. */
module EvidenceLineage {
  import opened Names
  import opened Wrappers
  import opened Counting
  import opened EvidenceDiversity

  // ---------- First occurrences ----------

  /** `x` occurs in `xs` before any occurrence of `y`. */
  ghost predicate OccursBefore<T>(xs: seq<T>, x: T, y: T) {
    exists p :: 0 <= p < |xs| && xs[p] == x && y !in xs[..p + 1]
  }

  lemma {:induction false} OccursBeforeGrows<T>(xs: seq<T>, z: T, x: T, y: T)
    requires OccursBefore(xs, x, y)
    ensures OccursBefore(xs + [z], x, y)
  {
    var p :| 0 <= p < |xs| && xs[p] == x && y !in xs[..p + 1];
    assert (xs + [z])[..p + 1] == xs[..p + 1];
    assert (xs + [z])[p] == x;
  }

  /** Each value once, in the order of the first occurrences. */
  lemma {:induction false} UniqueMeaning<T>(xs: seq<T>)
    ensures Distinct(Unique(xs))
    ensures forall x | x in Unique(xs) :: x in xs
    ensures forall x | x in xs :: x in Unique(xs)
    ensures forall i, j | 0 <= i < j < |Unique(xs)| :: OccursBefore(xs, Unique(xs)[i], Unique(xs)[j])
    ensures |Unique(xs)| <= |xs| && (xs != [] ==> Unique(xs) != [])
  {
    if xs != [] {
      var n := |xs| - 1;
      var before, u := Unique(xs[..n]), Unique(xs);
      assert xs == xs[..n] + [xs[n]];
      UniqueMeaning(xs[..n]);
      forall i, j | 0 <= i < j < |u| ensures OccursBefore(xs, u[i], u[j]) {
        if j < |before| {
          OccursBeforeGrows(xs[..n], xs[n], u[i], u[j]);
        } else {
          assert u[i] == before[i] && before[i] in before;
          var p :| 0 <= p < n && xs[..n][p] == u[i];
          assert xs[..p + 1] == xs[..n][..p + 1];
          assert xs[n] !in xs[..n];
        }
      }
    }
  }

  // ---------- Which experiences make a candidate ----------

  /** The reference and digest pairs of all evidence. */
  ghost function PairSet(xs: seq<Experience>): set<(Name, Name)> {
    set x, e | x in xs && e in x.evidence :: (e.refId, e.sha)
  }

  /** References and digests determine each other. */
  ghost predicate OneToOne(pairs: set<(Name, Name)>) {
    forall p, q | p in pairs && q in pairs :: p.0 == q.0 <==> p.1 == q.1
  }

  ghost predicate Suitable(x: Experience, head: Head) {
    && ValidExperience(x) && x.domain == head.domain && x.sensitivity <= head.sensitivity
    && (head.kind in {"memory", "skill"} ==> x.outcome == "verified_success")
  }

  /** One to 32 suitable experiences with distinct ids, at most 32 pieces of evidence, and a head that creates or patches. */
  ghost predicate Buildable(xs: seq<Experience>, head: Head) {
    && 1 <= |xs| <= 32 && (forall x | x in xs :: Suitable(x, head))
    && (forall i, j | 0 <= i < j < |xs| :: xs[i].id != xs[j].id)
    && OneToOne(PairSet(xs)) && |PairSet(xs)| <= 32
    && (if head.creates then head.target.None? && head.base.None? else head.target.Some? && head.base.Some?)
  }

  lemma PairsOfEvidence(xs: seq<Experience>)
    ensures SetOf(Unique(Pairs(AllEvidence(xs)))) == PairSet(xs)
    ensures |Unique(Pairs(AllEvidence(xs)))| == |PairSet(xs)|
  {
    var pairs := Pairs(AllEvidence(xs));
    UniqueMeaning(pairs);
    forall p ensures p in SetOf(Unique(pairs)) <==> p in PairSet(xs) {
      PairIsEvidence(xs, p);
      assert p in Unique(pairs) <==> p in pairs;
    }
    SizeMeansDistinct(Unique(pairs));
  }

  lemma PairIsEvidence(xs: seq<Experience>, p: (Name, Name))
    ensures p in Pairs(AllEvidence(xs)) <==> p in PairSet(xs)
  {
    var all := AllEvidence(xs);
    if p in Pairs(all) {
      var i :| 0 <= i < |all| && Pairs(all)[i] == p;
      EvidenceMembers(xs, all[i]);
    }
    if p in PairSet(xs) {
      var x, e :| x in xs && e in x.evidence && (e.refId, e.sha) == p;
      EvidenceMembers(xs, e);
      var i :| 0 <= i < |all| && all[i] == e;
      assert Pairs(all)[i] == p;
    }
  }

  lemma ColumnsAreDistinct(pairs: seq<(Name, Name)>)
    requires Distinct(pairs)
    ensures Distinct(Firsts(pairs)) && Distinct(Seconds(pairs)) <==> OneToOne(SetOf(pairs))
  {
    if OneToOne(SetOf(pairs)) {
      forall i, j | 0 <= i < j < |pairs| ensures pairs[i].0 != pairs[j].0 && pairs[i].1 != pairs[j].1 {
        assert pairs[i] in SetOf(pairs) && pairs[j] in SetOf(pairs);
      }
    }
    if Distinct(Firsts(pairs)) && Distinct(Seconds(pairs)) {
      forall p, q | p in SetOf(pairs) && q in SetOf(pairs) ensures p.0 == q.0 <==> p.1 == q.1 {
        var i :| 0 <= i < |pairs| && pairs[i] == p;
        var j :| 0 <= j < |pairs| && pairs[j] == q;
        assert Firsts(pairs)[i] == p.0 && Firsts(pairs)[j] == q.0;
        assert Seconds(pairs)[i] == p.1 && Seconds(pairs)[j] == q.1;
      }
    }
  }

  lemma IdColumn(xs: seq<Experience>)
    ensures Distinct(Ids(xs)) <==> forall i, j | 0 <= i < j < |xs| :: xs[i].id != xs[j].id
    ensures Distinct(Ids(xs)) ==> Distinct(Shas(xs))
  {
    assert forall i | 0 <= i < |xs| :: Ids(xs)[i] == xs[i].id && Shas(xs)[i] == ExperienceSha(xs[i]);
  }

  /** The lineage columns that are one per experience. */
  lemma RowColumns(xs: seq<Experience>, head: Head)
    ensures (forall d | d in Domains(xs) :: d == head.domain) <==> forall x | x in xs :: x.domain == head.domain
    ensures (forall s | s in Sensitivities(xs) :: s <= head.sensitivity) <==> forall x | x in xs :: x.sensitivity <= head.sensitivity
    ensures (forall o | o in Outcomes(xs) :: o == "verified_success") <==> forall x | x in xs :: x.outcome == "verified_success"
  {
    ColumnHolds(xs, Domains(xs), (x: Experience) => x.domain, (d: Name) => d == head.domain);
    ColumnHolds(xs, Sensitivities(xs), (x: Experience) => x.sensitivity, (s: nat) => s <= head.sensitivity);
    ColumnHolds(xs, Outcomes(xs), (x: Experience) => x.outcome, (o: Name) => o == "verified_success");
  }

  lemma ColumnHolds<T>(xs: seq<Experience>, column: seq<T>, value: Experience -> T, condition: T -> bool)
    requires |column| == |xs| && forall i | 0 <= i < |xs| :: column[i] == value(xs[i])
    ensures (forall t | t in column :: condition(t)) <==> forall x | x in xs :: condition(value(x))
  {
    if forall t | t in column :: condition(t) {
      forall x | x in xs ensures condition(value(x)) {
        var i :| 0 <= i < |xs| && xs[i] == x;
        assert column[i] in column;
      }
    }
    if forall x | x in xs :: condition(value(x)) {
      forall t | t in column ensures condition(t) {
        var i :| 0 <= i < |xs| && column[i] == t;
        assert xs[i] in xs;
      }
    }
  }

  lemma EvidenceColumns(xs: seq<Experience>)
    requires xs != [] && forall x | x in xs :: ValidExperience(x)
    ensures var l := LineageOf(xs);
            && |l.evidenceRefs| == |l.evidenceShas|
            && (Listed(l.evidenceRefs) && Listed(l.evidenceShas) <==> OneToOne(PairSet(xs)) && |PairSet(xs)| <= 32)
    ensures |xs| <= 32 ==> Listed(LineageOf(xs).tasks)
  {
    PairsOfEvidence(xs);
    UniqueMeaning(Pairs(AllEvidence(xs)));
    ColumnsAreDistinct(Unique(Pairs(AllEvidence(xs))));
    UniqueMeaning(Tasks(xs));
    assert xs[0] in xs && xs[0].evidence[0] in xs[0].evidence;
    assert (xs[0].evidence[0].refId, xs[0].evidence[0].sha) in PairSet(xs);
  }

  /** Building a candidate succeeds exactly for buildable experiences, and then keeps the head and lists the experiences. */
  lemma BuildableMeaning(xs: seq<Experience>, head: Head)
    ensures FromExperiences(xs, head).Ok? <==> Buildable(xs, head)
    ensures FromExperiences(xs, head).Ok? ==>
              FromExperiences(xs, head).value.head == head && Lists(FromExperiences(xs, head).value.lineage, xs)
  {
    if xs != [] && forall x | x in xs :: ValidExperience(x) && x.domain == head.domain {
      ValidColumns(xs, head);
    } else {
      UnsuitableIsNotBuildable(xs, head);
    }
    LineageLists(xs);
    BuildingKeepsSource(xs, head);
  }

  lemma UnsuitableIsNotBuildable(xs: seq<Experience>, head: Head)
    requires xs == [] || exists x :: x in xs && (!ValidExperience(x) || x.domain != head.domain)
    ensures !Buildable(xs, head) && FromExperiences(xs, head).Err?
  {
    if xs != [] {
      var x :| x in xs && (!ValidExperience(x) || x.domain != head.domain);
      assert !Suitable(x, head);
    }
  }

  lemma BuildingKeepsSource(xs: seq<Experience>, head: Head)
    ensures FromExperiences(xs, head).Ok? ==> FromExperiences(xs, head).value == Candidate(head, LineageOf(xs))
  {
  }

  lemma ValidColumns(xs: seq<Experience>, head: Head)
    requires xs != [] && forall x | x in xs :: ValidExperience(x) && x.domain == head.domain
    ensures ValidCandidate(Candidate(head, LineageOf(xs))) <==> Buildable(xs, head)
  {
    IdColumn(xs);
    RowColumns(xs, head);
    EvidenceColumns(xs);
    assert (forall x | x in xs :: Suitable(x, head)) <==>
      && (forall x | x in xs :: x.sensitivity <= head.sensitivity)
      && (head.kind in {"memory", "skill"} ==> forall x | x in xs :: x.outcome == "verified_success");
  }

  /** One entry per experience in order; tasks once each by first occurrence; evidence pairs likewise, in two columns. */
  ghost predicate Lists(l: Lineage, xs: seq<Experience>) {
    && |l.ids| == |l.shas| == |l.domains| == |l.sensitivities| == |l.outcomes| == |xs|
    && (forall i | 0 <= i < |xs| ::
          && l.ids[i] == xs[i].id && l.shas[i] == ExperienceSha(xs[i]) && l.domains[i] == xs[i].domain
          && l.sensitivities[i] == xs[i].sensitivity && l.outcomes[i] == xs[i].outcome)
    && Distinct(l.tasks) && (forall t :: t in l.tasks <==> exists x :: x in xs && x.taskId == t)
    && |l.evidenceRefs| == |l.evidenceShas| == |PairSet(xs)|
    && (forall p :: p in PairSet(xs) <==>
          exists i :: 0 <= i < |l.evidenceRefs| && (l.evidenceRefs[i], l.evidenceShas[i]) == p)
  }

  lemma LineageLists(xs: seq<Experience>)
    ensures Lists(LineageOf(xs), xs)
  {
    var l, unique := LineageOf(xs), Unique(Pairs(AllEvidence(xs)));
    UniqueMeaning(Tasks(xs));
    TasksAreListed(xs);
    PairsOfEvidence(xs);
    forall p ensures p in PairSet(xs) <==>
        exists i :: 0 <= i < |l.evidenceRefs| && (l.evidenceRefs[i], l.evidenceShas[i]) == p
    {
      if p in PairSet(xs) {
        assert p in SetOf(unique);
        var i :| 0 <= i < |unique| && unique[i] == p;
        assert (l.evidenceRefs[i], l.evidenceShas[i]) == p;
      }
      if i :| 0 <= i < |l.evidenceRefs| && (l.evidenceRefs[i], l.evidenceShas[i]) == p {
        assert unique[i] == p;
        assert p in SetOf(unique);
      }
    }
  }

  lemma TasksAreListed(xs: seq<Experience>)
    ensures forall t :: t in Tasks(xs) <==> exists x :: x in xs && x.taskId == t
  {
    forall t | t in Tasks(xs) ensures exists x :: x in xs && x.taskId == t {
      var i :| 0 <= i < |xs| && Tasks(xs)[i] == t;
      assert xs[i] in xs;
    }
    forall x | x in xs ensures x.taskId in Tasks(xs) {
      var i :| 0 <= i < |xs| && xs[i] == x;
      assert Tasks(xs)[i] == x.taskId;
    }
  }
}
