/**
  Evidence diversity: a candidate's lineage is bound to the exact experiences it was built from,
  and the experiences are then assessed against minimum counts.
*/
module EvidenceDiversity {
  import opened Names
  import opened Wrappers
  import opened Counting

  datatype Evidence = Evidence(
    refId: Name, sha: Name, sourceType: Name, taskId: Name, sensitivity: nat, mode: Name)

  datatype Experience = Experience(
    id: Name, domain: Name, taskId: Name, outcome: Name, sensitivity: nat, summary: string, evidence: seq<Evidence>,
    createdAt: Name)

  datatype ExperienceSha = ExperienceSha(experience: Experience)

  /** What a candidate says of itself; `sensitivity` is the rank of its class. */
  datatype Head = Head(
    id: Name, domain: Name, kind: Name, sensitivity: nat, creates: bool, target: Option<Name>, base: Option<Name>,
    content: string)

  /** What a candidate says of its sources. */
  datatype Lineage = Lineage(
    ids: seq<Name>, shas: seq<ExperienceSha>, domains: seq<Name>, sensitivities: seq<nat>, tasks: seq<Name>,
    outcomes: seq<Name>, evidenceRefs: seq<Name>, evidenceShas: seq<Name>)

  datatype Candidate = Candidate(head: Head, lineage: Lineage)

  datatype Profile = ValidatedProfile | ApprovedProfile | EnterpriseProfile

  datatype Policy = Policy(
    profile: Profile, minTasks: int, minHashes: int, minSourceTypes: int, minModes: int, minNonSynthetic: int)

  datatype Reason =
    | InsufficientTasks | InsufficientEvidence | InsufficientSourceTypes | InsufficientModes
    | InsufficientNonSynthetic | SyntheticOnly

  datatype Counts = Counts(
    experiences: nat, references: nat, tasks: nat, hashes: nat, sourceTypes: nat, modes: nat, synthetic: nat,
    nonSynthetic: int)

  datatype Assessment = Assessment(candidate: Candidate, policy: Policy, counts: Counts, passed: bool, reasons: seq<Reason>)

  datatype DiversityError =
    | PolicyInvalid | CandidateInvalid | ExperienceCountInvalid | ExperienceInvalid | DomainMismatch
    | EvidenceCapacityExceeded | ExperienceDuplicate | LineageMismatch | AssessmentInvalid

  datatype ContractError = ContractError(what: string)

  const MAX_EXPERIENCES: nat := 32
  const MAX_EVIDENCE: nat := 128

  // ---------- Experiences ----------

  predicate ValidExperience(x: Experience) {
    && 1 <= |x.evidence| <= 32
    && (forall i, j | 0 <= i < j < |x.evidence| :: x.evidence[i].refId != x.evidence[j].refId)
    && (forall e | e in x.evidence :: e.taskId == x.taskId && e.sensitivity <= x.sensitivity)
  }

  /** Walk the evidence, keeping the set of reference ids already seen. */
  method ValidateExperience(x: Experience) returns (r: Result<Experience, ContractError>)
    ensures r.Ok? <==> ValidExperience(x)
    ensures r.Ok? ==> r.value == x
  {
    if x.evidence == [] || |x.evidence| > 32 {
      return Err(ContractError("invalid evidence"));
    }
    var refs: set<Name> := {};
    for i := 0 to |x.evidence|
      invariant forall k | 0 <= k < i :: x.evidence[k].taskId == x.taskId && x.evidence[k].sensitivity <= x.sensitivity
      invariant forall j, k | 0 <= j < k < i :: x.evidence[j].refId != x.evidence[k].refId
      invariant forall k | 0 <= k < i :: x.evidence[k].refId in refs
      invariant forall ref | ref in refs :: exists k :: 0 <= k < i && x.evidence[k].refId == ref
    {
      var e := x.evidence[i];
      assert e in x.evidence;
      if e.refId in refs || e.taskId != x.taskId {
        return Err(ContractError("evidence lineage mismatch"));
      }
      if x.sensitivity < e.sensitivity {
        return Err(ContractError("experience sensitivity cannot downgrade evidence"));
      }
      refs := refs + {e.refId};
    }
    r := Ok(x);
  }

  // ---------- Lineage ----------

  /** First occurrences, in order: Python's `dict.fromkeys`. */
  function Unique<T(==)>(xs: seq<T>): seq<T> {
    if xs == [] then []
    else
      var n := |xs| - 1;
      var before := Unique(xs[..n]);
      if xs[n] in before then before else before + [xs[n]]
  }

  function AllEvidence(xs: seq<Experience>): seq<Evidence> {
    if xs == [] then [] else AllEvidence(xs[..|xs| - 1]) + xs[|xs| - 1].evidence
  }

  function Pairs(evidence: seq<Evidence>): seq<(Name, Name)> {
    seq(|evidence|, i requires 0 <= i < |evidence| => (evidence[i].refId, evidence[i].sha))
  }

  function Firsts(pairs: seq<(Name, Name)>): seq<Name> {
    seq(|pairs|, i requires 0 <= i < |pairs| => pairs[i].0)
  }

  function Seconds(pairs: seq<(Name, Name)>): seq<Name> {
    seq(|pairs|, i requires 0 <= i < |pairs| => pairs[i].1)
  }

  function Ids(xs: seq<Experience>): seq<Name> {
    seq(|xs|, i requires 0 <= i < |xs| => xs[i].id)
  }

  function Shas(xs: seq<Experience>): seq<ExperienceSha> {
    seq(|xs|, i requires 0 <= i < |xs| => ExperienceSha(xs[i]))
  }

  function Domains(xs: seq<Experience>): seq<Name> {
    seq(|xs|, i requires 0 <= i < |xs| => xs[i].domain)
  }

  function Sensitivities(xs: seq<Experience>): seq<nat> {
    seq(|xs|, i requires 0 <= i < |xs| => xs[i].sensitivity)
  }

  function Tasks(xs: seq<Experience>): seq<Name> {
    seq(|xs|, i requires 0 <= i < |xs| => xs[i].taskId)
  }

  function Outcomes(xs: seq<Experience>): seq<Name> {
    seq(|xs|, i requires 0 <= i < |xs| => xs[i].outcome)
  }

  function LineageOf(xs: seq<Experience>): Lineage {
    var pairs := Unique(Pairs(AllEvidence(xs)));
    Lineage(Ids(xs), Shas(xs), Domains(xs), Sensitivities(xs), Unique(Tasks(xs)), Outcomes(xs),
            Firsts(pairs), Seconds(pairs))
  }

  /** A non-empty tuple of at most 32 distinct values. */
  predicate Listed<T(==)>(values: seq<T>) {
    1 <= |values| <= 32 && Distinct(values)
  }

  /** The candidate's own validation, as far as it concerns lineage. */
  predicate ValidCandidate(c: Candidate) {
    var l := c.lineage;
    && Listed(l.ids) && Listed(l.shas) && |l.ids| == |l.shas|
    && |l.domains| == |l.sensitivities| == |l.outcomes| == |l.ids|
    && (forall d | d in l.domains :: d == c.head.domain)
    && (forall s | s in l.sensitivities :: s <= c.head.sensitivity)
    && (c.head.kind in {"memory", "skill"} ==> forall o | o in l.outcomes :: o == "verified_success")
    && Listed(l.tasks) && Listed(l.evidenceRefs) && Listed(l.evidenceShas) && |l.evidenceRefs| == |l.evidenceShas|
    && (c.head.creates ==> c.head.target.None? && c.head.base.None?)
    && (!c.head.creates ==> c.head.target.Some? && c.head.base.Some?)
  }

  function FromExperiences(xs: seq<Experience>, head: Head): Result<Candidate, ContractError> {
    if xs == [] then Err(ContractError("candidate requires experience"))
    else if exists x | x in xs :: !ValidExperience(x) || x.domain != head.domain
    then Err(ContractError("invalid or foreign experience"))
    else
      var c := Candidate(head, LineageOf(xs));
      if ValidCandidate(c) then Ok(c) else Err(ContractError("candidate invalid"))
  }

  /** The parallel lists that one pass over the experiences fills. */
  datatype Lists = Lists(
    ids: seq<Name>, shas: seq<ExperienceSha>, domains: seq<Name>, sensitivities: seq<nat>, tasks: seq<Name>,
    outcomes: seq<Name>, pairs: seq<(Name, Name)>, evidenceCount: nat)

  function ListsOf(xs: seq<Experience>): Lists {
    Lists(Ids(xs), Shas(xs), Domains(xs), Sensitivities(xs), Tasks(xs), Outcomes(xs), Pairs(AllEvidence(xs)),
          |AllEvidence(xs)|)
  }

  function Extended(l: Lists, x: Experience): Lists {
    Lists(l.ids + [x.id], l.shas + [ExperienceSha(x)], l.domains + [x.domain], l.sensitivities + [x.sensitivity],
          l.tasks + [x.taskId], l.outcomes + [x.outcome], l.pairs + Pairs(x.evidence), l.evidenceCount + |x.evidence|)
  }

  lemma ListsExtend(xs: seq<Experience>, x: Experience)
    ensures ListsOf(xs + [x]) == Extended(ListsOf(xs), x)
  {
    assert (xs + [x])[..|xs|] == xs;
  }

  /** Validate each experience and append to every list. */
  method CollectSource(domain: Name, xs: seq<Experience>) returns (r: Result<Lists, DiversityError>)
    ensures r.Ok? <==> forall x | x in xs :: ValidExperience(x) && x.domain == domain
    ensures r.Ok? ==> r.value == ListsOf(xs)
    ensures r.Err? ==> r.error in {ExperienceInvalid, DomainMismatch}
  {
    var lists := Lists([], [], [], [], [], [], [], 0);
    for i := 0 to |xs|
      invariant forall k | 0 <= k < i :: ValidExperience(xs[k]) && xs[k].domain == domain
      invariant lists == ListsOf(xs[..i])
    {
      assert xs[i] in xs;
      var valid := ValidateExperience(xs[i]);
      if valid.Err? {
        return Err(ExperienceInvalid);
      }
      if xs[i].domain != domain {
        return Err(DomainMismatch);
      }
      lists := Extended(lists, xs[i]);
      ListsExtend(xs[..i], xs[i]);
      assert xs[..i + 1] == xs[..i] + [xs[i]];
    }
    assert xs[..|xs|] == xs;
    r := Ok(lists);
  }

  /** Collect the eight parallel lists in one pass and compare them with the candidate's. */
  method ValidatedSource(c: Candidate, xs: seq<Experience>) returns (r: Result<seq<Experience>, DiversityError>)
    ensures r.Ok? <==>
      && ValidCandidate(c) && 1 <= |xs| <= MAX_EXPERIENCES
      && (forall x | x in xs :: ValidExperience(x) && x.domain == c.head.domain)
      && |AllEvidence(xs)| <= MAX_EVIDENCE
      && Distinct(Ids(xs)) && Distinct(Shas(xs))
      && c.lineage == LineageOf(xs)
    ensures r.Ok? ==> r.value == xs
    ensures r.Err? ==> r.error != AssessmentInvalid
  {
    if !ValidCandidate(c) {
      return Err(CandidateInvalid);
    }
    if !(1 <= |xs| <= MAX_EXPERIENCES) {
      return Err(ExperienceCountInvalid);
    }
    var lists :- CollectSource(c.head.domain, xs);
    SizeMeansDistinct(lists.ids);
    SizeMeansDistinct(lists.shas);
    if lists.evidenceCount > MAX_EVIDENCE {
      return Err(EvidenceCapacityExceeded);
    }
    if |SetOf(lists.ids)| != |lists.ids| || |SetOf(lists.shas)| != |lists.shas| {
      return Err(ExperienceDuplicate);
    }
    var unique := Unique(lists.pairs);
    if c.lineage != Lineage(lists.ids, lists.shas, lists.domains, lists.sensitivities, Unique(lists.tasks), lists.outcomes,
                            Firsts(unique), Seconds(unique)) {
      return Err(LineageMismatch);
    }
    r := Ok(xs);
  }

  // ---------- Assessment ----------

  predicate ValidPolicy(p: Policy) {
    && 1 <= p.minTasks <= 32 && 1 <= p.minHashes <= 128 && 1 <= p.minSourceTypes <= 16 && 1 <= p.minModes <= 16
    && 0 <= p.minNonSynthetic <= 32 && p.minNonSynthetic <= p.minTasks
  }

  function ForProfile(profile: Profile): (p: Policy)
    ensures ValidPolicy(p)
  {
    match profile
    case ValidatedProfile => Policy(profile, 1, 1, 1, 1, 0)
    case ApprovedProfile => Policy(profile, 2, 2, 1, 1, 1)
    case EnterpriseProfile => Policy(profile, 3, 3, 2, 1, 2)
  }

  predicate Synthetic(e: Evidence) {
    e.sourceType == "synthetic_fixture" || e.mode == "synthetic"
  }

  function TaskSet(xs: seq<Experience>): set<Name> {
    set x | x in xs :: x.taskId
  }

  function HashSet(evidence: seq<Evidence>): set<Name> {
    set e | e in evidence :: e.sha
  }

  function SourceTypeSet(evidence: seq<Evidence>): set<Name> {
    set e | e in evidence :: e.sourceType
  }

  function ModeSet(evidence: seq<Evidence>): set<Name> {
    set e | e in evidence :: e.mode
  }

  predicate AllSynthetic(x: Experience) {
    x.evidence != [] && forall e | e in x.evidence :: Synthetic(e)
  }

  /** The tasks whose every piece of evidence is synthetic. */
  function SyntheticTasks(xs: seq<Experience>): set<Name> {
    set t | t in TaskSet(xs) && forall x | x in xs && x.taskId == t :: AllSynthetic(x)
  }

  function CountsOf(xs: seq<Experience>): Counts {
    var evidence := AllEvidence(xs);
    Counts(|xs|, |evidence|, |TaskSet(xs)|, |HashSet(evidence)|, |SourceTypeSet(evidence)|, |ModeSet(evidence)|,
           |SyntheticTasks(xs)|, |TaskSet(xs)| - |SyntheticTasks(xs)|)
  }

  /** A reason is given exactly when its minimum is missed. */
  predicate Given(reason: Reason, policy: Policy, c: Counts) {
    match reason
    case InsufficientTasks => c.tasks < policy.minTasks
    case InsufficientEvidence => c.hashes < policy.minHashes
    case InsufficientSourceTypes => c.sourceTypes < policy.minSourceTypes
    case InsufficientModes => c.modes < policy.minModes
    case InsufficientNonSynthetic => c.nonSynthetic < policy.minNonSynthetic
    case SyntheticOnly => !policy.profile.ValidatedProfile? && c.nonSynthetic == 0
  }

  predicate ValidAssessment(a: Assessment) {
    var c := a.counts;
    && c.experiences <= 128 && c.references <= 128 && c.tasks <= 128 && c.hashes <= 128 && c.sourceTypes <= 128
    && c.modes <= 128 && c.synthetic <= 128 && 0 <= c.nonSynthetic <= 128
    && c.synthetic + c.nonSynthetic == c.tasks
    && |a.reasons| <= 16 && Distinct(a.reasons)
    && (a.passed <==> a.reasons == [])
  }

  function Note(reasons: seq<Reason>, missed: bool, reason: Reason): (r: seq<Reason>)
    requires Distinct(reasons) && reason !in reasons
    ensures Distinct(r) && |r| <= |reasons| + 1
    ensures forall x :: x in r <==> x in reasons || (missed && x == reason)
  {
    if missed then reasons + [reason] else reasons
  }

  /** The four minimums that any evidence counts towards. */
  method CollectMinimums(policy: Policy, c: Counts) returns (reasons: seq<Reason>)
    ensures forall reason :: reason in reasons <==>
              reason !in {InsufficientNonSynthetic, SyntheticOnly} && Given(reason, policy, c)
    ensures Distinct(reasons) && |reasons| <= 4
  {
    reasons := Note([], c.tasks < policy.minTasks, InsufficientTasks);
    reasons := Note(reasons, c.hashes < policy.minHashes, InsufficientEvidence);
    reasons := Note(reasons, c.sourceTypes < policy.minSourceTypes, InsufficientSourceTypes);
    reasons := Note(reasons, c.modes < policy.minModes, InsufficientModes);
  }

  /** The six checks, in order. */
  method CollectReasons(policy: Policy, c: Counts) returns (reasons: seq<Reason>)
    ensures forall reason :: reason in reasons <==> Given(reason, policy, c)
    ensures Distinct(reasons) && |reasons| <= 6
  {
    reasons := CollectMinimums(policy, c);
    reasons := Note(reasons, c.nonSynthetic < policy.minNonSynthetic, InsufficientNonSynthetic);
    reasons := Note(reasons, !policy.profile.ValidatedProfile? && c.nonSynthetic == 0, SyntheticOnly);
  }

  /** The dictionary of tasks, AND-folded over the experiences. */
  method FoldSynthetic(xs: seq<Experience>) returns (synthetic: map<Name, bool>)
    ensures synthetic.Keys == TaskSet(xs)
    ensures forall t | t in synthetic :: synthetic[t] <==> t in SyntheticTasks(xs)
  {
    synthetic := map[];
    for i := 0 to |xs|
      invariant forall t :: t in synthetic <==> exists k :: 0 <= k < i && xs[k].taskId == t
      invariant forall t | t in synthetic ::
        synthetic[t] <==> forall k | 0 <= k < i && xs[k].taskId == t :: AllSynthetic(xs[k])
    {
      var item := xs[i];
      var flag := item.evidence != [] && forall e | e in item.evidence :: Synthetic(e);
      var before := if item.taskId in synthetic then synthetic[item.taskId] else true;
      synthetic := synthetic[item.taskId := before && flag];
    }
    forall t | t in synthetic ensures t in TaskSet(xs) {
      var k :| 0 <= k < |xs| && xs[k].taskId == t;
      assert xs[k] in xs;
    }
    forall t | t in synthetic ensures synthetic[t] <==> t in SyntheticTasks(xs) {
      if synthetic[t] {
        forall x | x in xs && x.taskId == t ensures AllSynthetic(x) {
          var k :| 0 <= k < |xs| && xs[k] == x;
        }
      }
      if t in SyntheticTasks(xs) {
        forall k | 0 <= k < |xs| && xs[k].taskId == t ensures AllSynthetic(xs[k]) { assert xs[k] in xs; }
      }
    }
  }

  method Evaluate(c: Candidate, xs: seq<Experience>, policy: Policy) returns (r: Result<Assessment, DiversityError>)
    ensures r.Ok? <==>
      ValidPolicy(policy) && FromExperiences(xs, c.head) == Ok(c) && |AllEvidence(xs)| <= MAX_EVIDENCE
    ensures r.Ok? ==>
      && r.value.candidate == c && r.value.policy == policy && r.value.counts == CountsOf(xs)
      && (forall reason :: reason in r.value.reasons <==> Given(reason, policy, CountsOf(xs)))
      && ValidAssessment(r.value)
    ensures r != Err(AssessmentInvalid)
  {
    if !ValidPolicy(policy) {
      return Err(PolicyInvalid);
    }
    BindingIsExact(c, xs);
    var source :- ValidatedSource(c, xs);
    var counts := CountDiversity(source);
    var reasons := CollectReasons(policy, counts);
    CountsAreBounded(source);
    var assessment := Assessment(c, policy, counts, reasons == [], reasons);
    r := if ValidAssessment(assessment) then Ok(assessment) else Err(AssessmentInvalid);
  }

  /** The sets and the folded dictionary, counted. */
  method CountDiversity(xs: seq<Experience>) returns (counts: Counts)
    ensures counts == CountsOf(xs)
  {
    var evidence := AllEvidence(xs);
    var synthetic := FoldSynthetic(xs);
    var synthetics := |set t | t in synthetic.Keys && synthetic[t]|;
    assert (set t | t in synthetic.Keys && synthetic[t]) == SyntheticTasks(xs);
    counts := Counts(|xs|, |evidence|, |TaskSet(xs)|, |HashSet(evidence)|, |SourceTypeSet(evidence)|, |ModeSet(evidence)|,
                     synthetics, |synthetic| - synthetics);
  }

  // ---------- Lineage laws ----------

  /**
    The evaluator accepts a candidate with some experiences exactly when building a candidate from
    those experiences, with the same head, gives this very candidate, and the evidence fits.
  */
  lemma BindingIsExact(c: Candidate, xs: seq<Experience>)
    ensures
      (&& ValidCandidate(c) && 1 <= |xs| <= MAX_EXPERIENCES
       && (forall x | x in xs :: ValidExperience(x) && x.domain == c.head.domain)
       && Distinct(Ids(xs)) && Distinct(Shas(xs)) && c.lineage == LineageOf(xs))
      <==> FromExperiences(xs, c.head) == Ok(c)
  {
  }

  /** One candidate binds one list of experiences. */
  lemma LineageDeterminesExperiences(c: Candidate, xs: seq<Experience>, ys: seq<Experience>)
    requires FromExperiences(xs, c.head) == Ok(c) && FromExperiences(ys, c.head) == Ok(c)
    ensures xs == ys
  {
    assert |xs| == |Shas(xs)| == |Shas(ys)| == |ys|;
    forall i | 0 <= i < |xs| ensures xs[i] == ys[i] {
      assert Shas(xs)[i] == Shas(ys)[i];
    }
  }

  // ---------- Assessment laws ----------

  lemma {:induction false} EvidenceMembers(xs: seq<Experience>, e: Evidence)
    ensures e in AllEvidence(xs) <==> exists x :: x in xs && e in x.evidence
  {
    if xs != [] {
      EvidenceMembers(xs[..|xs| - 1], e);
      assert xs == xs[..|xs| - 1] + [xs[|xs| - 1]];
    }
  }

  lemma {:induction false} ImageIsSmall<A, B>(xs: seq<A>, f: A -> B, image: set<B>)
    requires forall b | b in image :: exists x :: x in xs && f(x) == b
    ensures |image| <= |xs|
  {
    if xs == [] {
      assert image == {};
    } else {
      var n := |xs| - 1;
      forall b | b in image - {f(xs[n])} ensures exists x :: x in xs[..n] && f(x) == b {
        var x :| x in xs && f(x) == b;
        var i :| 0 <= i < |xs| && xs[i] == x;
        assert xs[..n][i] == x;
      }
      ImageIsSmall(xs[..n], f, image - {f(xs[n])});
      assert image <= (image - {f(xs[n])}) + {f(xs[n])};
      SubsetSize(image, (image - {f(xs[n])}) + {f(xs[n])});
    }
  }

  lemma CountsAreBounded(xs: seq<Experience>)
    ensures var c := CountsOf(xs);
            && c.tasks <= |xs| && 0 <= c.nonSynthetic && c.synthetic + c.nonSynthetic == c.tasks
            && c.hashes <= c.references && c.sourceTypes <= c.references && c.modes <= c.references
  {
    var evidence := AllEvidence(xs);
    ImageIsSmall(xs, (x: Experience) => x.taskId, TaskSet(xs));
    ImageIsSmall(evidence, (e: Evidence) => e.sha, HashSet(evidence));
    ImageIsSmall(evidence, (e: Evidence) => e.sourceType, SourceTypeSet(evidence));
    ImageIsSmall(evidence, (e: Evidence) => e.mode, ModeSet(evidence));
    SubsetSize(SyntheticTasks(xs), TaskSet(xs));
  }

  /** More experiences never lower a count that a policy sets a minimum for. */
  lemma CountsGrow(xs: seq<Experience>, ys: seq<Experience>)
    requires forall x | x in xs :: x in ys
    ensures var a, b := CountsOf(xs), CountsOf(ys);
            && a.tasks <= b.tasks && a.hashes <= b.hashes && a.sourceTypes <= b.sourceTypes && a.modes <= b.modes
            && a.nonSynthetic <= b.nonSynthetic
  {
    var e, f := AllEvidence(xs), AllEvidence(ys);
    forall p | p in e ensures p in f { EvidenceMembers(xs, p); EvidenceMembers(ys, p); }
    SubsetSize(TaskSet(xs), TaskSet(ys));
    SubsetSize(HashSet(e), HashSet(f));
    SubsetSize(SourceTypeSet(e), SourceTypeSet(f));
    SubsetSize(ModeSet(e), ModeSet(f));
    SubsetSize(TaskSet(xs) - SyntheticTasks(xs), TaskSet(ys) - SyntheticTasks(ys));
    assert TaskSet(xs) == (TaskSet(xs) - SyntheticTasks(xs)) + SyntheticTasks(xs);
    assert TaskSet(ys) == (TaskSet(ys) - SyntheticTasks(ys)) + SyntheticTasks(ys);
  }

  /** With growing experience, reasons can only disappear; their order and repetition never matter. */
  lemma DiversityIsMonotone(xs: seq<Experience>, ys: seq<Experience>, policy: Policy, reason: Reason)
    requires forall x | x in xs :: x in ys
    ensures Given(reason, policy, CountsOf(ys)) ==> Given(reason, policy, CountsOf(xs))
    ensures (forall y | y in ys :: y in xs) ==> (Given(reason, policy, CountsOf(ys)) <==> Given(reason, policy, CountsOf(xs)))
  {
    CountsGrow(xs, ys);
    CountsAreBounded(xs);
    CountsAreBounded(ys);
    if forall y | y in ys :: y in xs { CountsGrow(ys, xs); }
  }

  ghost predicate Passes(profile: Profile, xs: seq<Experience>) {
    forall reason :: !Given(reason, ForProfile(profile), CountsOf(xs))
  }

  lemma PassMeaning(profile: Profile, xs: seq<Experience>)
    ensures var c, p := CountsOf(xs), ForProfile(profile);
            Passes(profile, xs) <==>
              && c.tasks >= p.minTasks && c.hashes >= p.minHashes && c.sourceTypes >= p.minSourceTypes
              && c.modes >= p.minModes && c.nonSynthetic >= p.minNonSynthetic
  {
    var c, p := CountsOf(xs), ForProfile(profile);
    if Passes(profile, xs) {
      assert !Given(InsufficientTasks, p, c) && !Given(InsufficientEvidence, p, c) && !Given(InsufficientSourceTypes, p, c);
      assert !Given(InsufficientModes, p, c) && !Given(InsufficientNonSynthetic, p, c);
    }
  }

  /** Having evidence at all makes every basic count positive. */
  lemma EvidenceCounts(xs: seq<Experience>)
    ensures var c := CountsOf(xs);
            AllEvidence(xs) != [] <==> c.hashes >= 1 && c.sourceTypes >= 1 && c.modes >= 1
    ensures AllEvidence(xs) != [] ==> CountsOf(xs).tasks >= 1
    ensures CountsOf(xs).nonSynthetic > 0 <==> TaskSet(xs) != SyntheticTasks(xs)
  {
    var evidence := AllEvidence(xs);
    CountsAreBounded(xs);
    if evidence != [] {
      var e := evidence[0];
      EvidenceMembers(xs, e);
      var x :| x in xs && e in x.evidence;
      assert e in evidence;
      assert e.sha in HashSet(evidence) && e.sourceType in SourceTypeSet(evidence) && e.mode in ModeSet(evidence);
      assert x.taskId in TaskSet(xs);
    }
    assert TaskSet(xs) == (TaskSet(xs) - SyntheticTasks(xs)) + SyntheticTasks(xs);
  }

  /** A task counts as non-synthetic if some experience of it has no evidence, or evidence that is not synthetic. */
  lemma NonSyntheticMeaning(xs: seq<Experience>, t: Name)
    ensures t in TaskSet(xs) - SyntheticTasks(xs) <==>
              exists x :: x in xs && x.taskId == t && (x.evidence == [] || exists e :: e in x.evidence && Genuine(e))
  {
    if t in TaskSet(xs) - SyntheticTasks(xs) {
      var x :| x in xs && x.taskId == t && !AllSynthetic(x);
      if x.evidence != [] {
        var e :| e in x.evidence && !Synthetic(e);
        assert Genuine(e);
      }
    }
    if x :| x in xs && x.taskId == t && (x.evidence == [] || exists e :: e in x.evidence && Genuine(e)) {
      assert !AllSynthetic(x);
    }
  }

  /** Neither a synthetic fixture nor gathered in synthetic mode. */
  predicate Genuine(e: Evidence) {
    e.sourceType != "synthetic_fixture" && e.mode != "synthetic"
  }

  /** The profiles are ordered, and say exactly this about the experiences. */
  lemma ProfilesAreOrdered(xs: seq<Experience>)
    ensures Passes(EnterpriseProfile, xs) ==> Passes(ApprovedProfile, xs)
    ensures Passes(ApprovedProfile, xs) ==> Passes(ValidatedProfile, xs)
    ensures Passes(ValidatedProfile, xs) <==> AllEvidence(xs) != []
    ensures Passes(ApprovedProfile, xs) <==>
              |TaskSet(xs)| >= 2 && |HashSet(AllEvidence(xs))| >= 2 && TaskSet(xs) != SyntheticTasks(xs)
    ensures Passes(EnterpriseProfile, xs) <==>
              && |TaskSet(xs)| >= 3 && |HashSet(AllEvidence(xs))| >= 3 && |SourceTypeSet(AllEvidence(xs))| >= 2
              && |TaskSet(xs) - SyntheticTasks(xs)| >= 2
  {
    PassMeaning(ValidatedProfile, xs);
    PassMeaning(ApprovedProfile, xs);
    PassMeaning(EnterpriseProfile, xs);
    EvidenceCounts(xs);
    CountsAreBounded(xs);
    assert TaskSet(xs) == (TaskSet(xs) - SyntheticTasks(xs)) + SyntheticTasks(xs);
  }
}
