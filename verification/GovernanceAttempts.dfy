/**
  A lane's attempts: a one-pass checker with a failure counter, against what it says of every
  pair of neighbours, and what follows for whole lists of attempts.
*/
module GovernanceAttempts {
  import opened Wrappers

  /** A decoded JSON value. */
  datatype Value =
    | Null | Flag(b: bool) | Number(n: int) | Text(s: string) | List(items: seq<Value>) | Object(fields: map<string, Value>)

  type Attempt = map<string, Value>

  /** The parts of the policy that the checker reads; `repr` is the text of a value that is no string. */
  datatype Policy = Policy(
    required: seq<string>, outcomes: set<string>, logStates: set<string>, failedFields: seq<string>,
    missingLogFields: seq<string>, instrumentedFields: seq<string>, postInstrumentationFields: seq<string>,
    threshold: int, minFamilies: int, success: string, repr: Value -> string)

  datatype Lane = Lane(status: string, attempts: Value)

  datatype AttemptError =
    | AttemptsNotList | AttemptNotObject | FieldsMissing | AttemptIdInvalid | OutcomeInvalid | VerificationEvidenceMissing
    | DiagnosisReferenceWrong | StrategyNotChanged | RerunNotJustified | NotInstrumented | InstrumentationEvidenceMissing
    | LogsNotCaptured | PostInstrumentationEvidenceMissing | FailureEvidenceMissing | PassWithoutPass
    | HardFailedWithoutFail | TooFewFamilies

  // ---------- Text ----------

  predicate IsSpace(c: char) {
    var k := c as int;
    9 <= k <= 13 || 28 <= k <= 32 || k == 0x85 || k == 0xA0 || k == 0x1680 || 0x2000 <= k <= 0x200A
    || k == 0x2028 || k == 0x2029 || k == 0x202F || k == 0x205F || k == 0x3000
  }

  function StripLeft(s: string): (r: string)
    ensures |r| <= |s| && (r == "" || !IsSpace(r[0]))
  {
    if s != "" && IsSpace(s[0]) then StripLeft(s[1..]) else s
  }

  function StripRight(s: string): (r: string)
    ensures r <= s && (r == "" || !IsSpace(r[|r| - 1]))
  {
    if s != "" && IsSpace(s[|s| - 1]) then StripRight(s[..|s| - 1]) else s
  }

  function Strip(s: string): (r: string)
    ensures |r| <= |s|
    ensures r == "" || (!IsSpace(r[0]) && !IsSpace(r[|r| - 1]))
  {
    StripRight(StripLeft(s))
  }

  function Rendered(policy: Policy, v: Value): string {
    if v.Text? then v.s else policy.repr(v)
  }

  predicate EvidencePresent(v: Value) {
    match v
    case Text(s) => Strip(s) != ""
    case List(items) => items != [] && forall i | 0 <= i < |items| :: EvidencePresent(items[i])
    case Object(fields) => fields != map[]
    case Null => false
    case Flag(_) => false
    case Number(_) => false
  }

  // ---------- Single attempts and neighbours ----------

  function Get(a: Attempt, field: string): Value {
    if field in a then a[field] else Null
  }

  predicate Present(a: Attempt, field: string) {
    EvidencePresent(Get(a, field))
  }

  predicate AllPresent(a: Attempt, fields: seq<string>) {
    forall i | 0 <= i < |fields| :: Present(a, fields[i])
  }

  function AttemptId(policy: Policy, a: Attempt): string {
    Strip(Rendered(policy, Get(a, "attempt_id")))
  }

  predicate HasOutcome(a: Attempt, outcome: string) {
    Get(a, "outcome") == Text(outcome)
  }

  predicate Failed(a: Attempt) {
    HasOutcome(a, "FAIL")
  }

  predicate LogMissing(a: Attempt) {
    Get(a, "log_state") == Text("MISSING")
  }

  /** The text of an optional reference or justification, where an absent field is empty text. */
  function Mention(policy: Policy, a: Attempt, field: string): string {
    Strip(if field in a then Rendered(policy, a[field]) else "")
  }

  predicate Among(v: Value, names: set<string>) {
    v.Text? && v.s in names
  }

  predicate FailureRecorded(policy: Policy, a: Attempt) {
    && (forall i | 0 <= i < |policy.failedFields| :: policy.failedFields[i] in a)
    && (forall i | 0 <= i < |policy.failedFields| ::
          policy.failedFields[i] == "log_state" || Present(a, policy.failedFields[i]))
    && Among(Get(a, "log_state"), policy.logStates)
    && (if Get(a, "log_state") == Text("AVAILABLE") then Present(a, "log_evidence")
        else AllPresent(a, policy.missingLogFields))
  }

  /** What is asked of an attempt by itself. */
  predicate AttemptSound(policy: Policy, a: Attempt) {
    && (forall i | 0 <= i < |policy.required| :: policy.required[i] in a)
    && AttemptId(policy, a) != ""
    && Among(Get(a, "outcome"), policy.outcomes)
    && Present(a, "verification_evidence")
    && (Failed(a) ==> FailureRecorded(policy, a))
  }

  predicate Instrumented(policy: Policy, a: Attempt) {
    && Get(a, "strategy_family") == Text("targeted_instrumentation")
    && AllPresent(a, policy.instrumentedFields)
    && (Failed(a) ==> Get(a, "log_state") == Text("AVAILABLE") && AllPresent(a, policy.postInstrumentationFields))
  }

  predicate QuotesPrior(policy: Policy, prior: Attempt, a: Attempt) {
    Mention(policy, a, "prior_failure_diagnosis_ref") == Rendered(policy, Get(prior, "attempt_id"))
  }

  /** A repeated strategy needs a justification, and is out of the question after `threshold` failures. */
  predicate VariesStrategy(policy: Policy, prior: Attempt, a: Attempt, run: nat) {
    Get(a, "strategy_family") == Get(prior, "strategy_family") ==>
      run < policy.threshold && Mention(policy, a, "rerun_justification") != ""
  }

  /** What is asked of an attempt that follows `run` consecutive failures, the last of them `prior`. */
  predicate Answers(policy: Policy, prior: Attempt, a: Attempt, run: nat) {
    && QuotesPrior(policy, prior, a)
    && VariesStrategy(policy, prior, a, run)
    && (LogMissing(prior) ==> Instrumented(policy, a))
  }

  predicate Step(policy: Policy, prior: Option<Attempt>, a: Attempt, run: nat) {
    AttemptSound(policy, a) && (prior.Some? && Failed(prior.value) ==> Answers(policy, prior.value, a, run))
  }

  /** How many consecutive attempts failed immediately before position i. */
  function RunBefore(attempts: seq<Attempt>, i: nat): nat
    requires i <= |attempts|
  {
    if i == 0 || !Failed(attempts[i - 1]) then 0 else 1 + RunBefore(attempts, i - 1)
  }

  predicate StepSound(policy: Policy, attempts: seq<Attempt>, i: nat)
    requires i < |attempts|
  {
    Step(policy, if i == 0 then None else Some(attempts[i - 1]), attempts[i], RunBefore(attempts, i))
  }

  predicate DistinctIds(policy: Policy, attempts: seq<Attempt>) {
    forall i, j | 0 <= i < j < |attempts| :: AttemptId(policy, attempts[i]) != AttemptId(policy, attempts[j])
  }

  /** The declarative meaning of the one-pass check. */
  predicate Accepted(policy: Policy, attempts: seq<Attempt>) {
    DistinctIds(policy, attempts) && forall i | 0 <= i < |attempts| :: StepSound(policy, attempts, i)
  }

  function Families(policy: Policy, attempts: seq<Attempt>): set<string> {
    set i | 0 <= i < |attempts| :: FamilyText(policy, attempts[i])
  }

  function FamilyText(policy: Policy, a: Attempt): string {
    if "strategy_family" in a then Rendered(policy, a["strategy_family"]) else "None"
  }

  predicate StatusSupported(policy: Policy, status: string, attempts: seq<Attempt>) {
    && (status == policy.success ==> attempts != [] && HasOutcome(attempts[|attempts| - 1], "PASS"))
    && (status == "HARD_FAILED" ==>
          && attempts != [] && Failed(attempts[|attempts| - 1])
          && |Families(policy, attempts)| >= policy.minFamilies)
  }

  // ---------- One more attempt ----------

  lemma {:induction false} RunBeforeIgnoresLater(attempts: seq<Attempt>, next: Attempt, i: nat)
    requires i <= |attempts|
    ensures RunBefore(attempts + [next], i) == RunBefore(attempts, i)
  {
    if i > 0 { RunBeforeIgnoresLater(attempts, next, i - 1); }
  }

  lemma StepSurvives(policy: Policy, attempts: seq<Attempt>, next: Attempt, i: nat)
    requires i < |attempts|
    ensures StepSound(policy, attempts + [next], i) <==> StepSound(policy, attempts, i)
    ensures AttemptId(policy, (attempts + [next])[i]) == AttemptId(policy, attempts[i])
  {
    RunBeforeIgnoresLater(attempts, next, i);
    assert (attempts + [next])[i] == attempts[i];
    assert i > 0 ==> (attempts + [next])[i - 1] == attempts[i - 1];
  }

  function Previous(attempts: seq<Attempt>): Option<Attempt> {
    if attempts == [] then None else Some(attempts[|attempts| - 1])
  }

  /** What an accepted list asks of one more attempt. */
  predicate Fits(policy: Policy, attempts: seq<Attempt>, next: Attempt) {
    Step(policy, Previous(attempts), next, RunBefore(attempts, |attempts|))
  }

  lemma LastStepFits(policy: Policy, attempts: seq<Attempt>, next: Attempt)
    ensures StepSound(policy, attempts + [next], |attempts|) <==> Fits(policy, attempts, next)
  {
    RunBeforeIgnoresLater(attempts, next, |attempts|);
    assert (attempts + [next])[|attempts|] == next;
    assert attempts != [] ==> (attempts + [next])[|attempts| - 1] == attempts[|attempts| - 1];
  }

  predicate IsNewId(policy: Policy, attempts: seq<Attempt>, next: Attempt) {
    forall i | 0 <= i < |attempts| :: AttemptId(policy, attempts[i]) != AttemptId(policy, next)
  }

  lemma IdsGrow(policy: Policy, attempts: seq<Attempt>, next: Attempt)
    ensures DistinctIds(policy, attempts + [next]) <==> DistinctIds(policy, attempts) && IsNewId(policy, attempts, next)
  {
    var grown := attempts + [next];
    assert forall i | 0 <= i < |attempts| :: grown[i] == attempts[i];
    if DistinctIds(policy, grown) {
      forall i, j | 0 <= i < j < |attempts| ensures AttemptId(policy, attempts[i]) != AttemptId(policy, attempts[j]) {
        assert grown[i] == attempts[i] && grown[j] == attempts[j];
      }
      forall i | 0 <= i < |attempts| ensures AttemptId(policy, attempts[i]) != AttemptId(policy, next) {
        assert grown[i] == attempts[i] && grown[|attempts|] == next;
      }
    }
  }

  /** Extending a list by one attempt, as a condition on that attempt. */
  lemma AcceptedGrows(policy: Policy, attempts: seq<Attempt>, next: Attempt)
    requires Accepted(policy, attempts)
    ensures Accepted(policy, attempts + [next]) <==> IsNewId(policy, attempts, next) && Fits(policy, attempts, next)
  {
    IdsGrow(policy, attempts, next);
    LastStepFits(policy, attempts, next);
    forall i | 0 <= i < |attempts| ensures StepSound(policy, attempts + [next], i) {
      StepSurvives(policy, attempts, next, i);
    }
  }

  lemma {:induction false} AcceptedPrefix(policy: Policy, attempts: seq<Attempt>, i: nat)
    requires i <= |attempts| && Accepted(policy, attempts)
    ensures Accepted(policy, attempts[..i])
    decreases |attempts|
  {
    if i < |attempts| {
      var n := |attempts| - 1;
      assert attempts == attempts[..n] + [attempts[n]];
      IdsGrow(policy, attempts[..n], attempts[n]);
      forall k | 0 <= k < n ensures StepSound(policy, attempts[..n], k) {
        assert StepSound(policy, attempts, k);
        StepSurvives(policy, attempts[..n], attempts[n], k);
      }
      AcceptedPrefix(policy, attempts[..n], i);
      assert attempts[..n][..i] == attempts[..i];
    } else {
      assert attempts[..i] == attempts;
    }
  }

  // ---------- The checker ----------

  method RequireFailedFields(policy: Policy, a: Attempt) returns (r: Result<Attempt, AttemptError>)
    ensures r.Ok? <==> FailureRecorded(policy, a)
  {
    if exists i | 0 <= i < |policy.failedFields| :: policy.failedFields[i] !in a {
      return Err(FieldsMissing);
    }
    for i := 0 to |policy.failedFields|
      invariant forall k | 0 <= k < i :: policy.failedFields[k] == "log_state" || Present(a, policy.failedFields[k])
    {
      if policy.failedFields[i] == "log_state" {
        continue;
      }
      if !Present(a, policy.failedFields[i]) {
        return Err(FailureEvidenceMissing);
      }
    }
    if !Among(Get(a, "log_state"), policy.logStates) {
      return Err(FailureEvidenceMissing);
    }
    if Get(a, "log_state") == Text("AVAILABLE") {
      return if Present(a, "log_evidence") then Ok(a) else Err(FailureEvidenceMissing);
    }
    r := if AllPresent(a, policy.missingLogFields) then Ok(a) else Err(FailureEvidenceMissing);
  }

  /** The checks against the previous failed attempt. */
  method CheckAgainstPrior(policy: Policy, prior: Attempt, a: Attempt, run: nat) returns (r: Result<Attempt, AttemptError>)
    ensures r.Ok? <==> Answers(policy, prior, a, run)
  {
    if Mention(policy, a, "prior_failure_diagnosis_ref") != Rendered(policy, Get(prior, "attempt_id")) {
      return Err(DiagnosisReferenceWrong);
    }
    if run >= policy.threshold {
      if Get(a, "strategy_family") == Get(prior, "strategy_family") {
        return Err(StrategyNotChanged);
      }
    } else if Get(a, "strategy_family") == Get(prior, "strategy_family") {
      if Mention(policy, a, "rerun_justification") == "" {
        return Err(RerunNotJustified);
      }
    }
    if LogMissing(prior) {
      if Get(a, "strategy_family") != Text("targeted_instrumentation") {
        return Err(NotInstrumented);
      }
      if !AllPresent(a, policy.instrumentedFields) {
        return Err(InstrumentationEvidenceMissing);
      }
      if Failed(a) {
        if Get(a, "log_state") != Text("AVAILABLE") {
          return Err(LogsNotCaptured);
        }
        if !AllPresent(a, policy.postInstrumentationFields) {
          return Err(PostInstrumentationEvidenceMissing);
        }
      }
    }
    r := Ok(a);
  }

  /** The checks of one attempt, given what the pass carries. */
  method CheckAttempt(policy: Policy, previous: Option<Attempt>, a: Attempt, run: nat, seen: set<string>)
    returns (r: Result<Attempt, AttemptError>)
    ensures r.Ok? <==> Step(policy, previous, a, run) && AttemptId(policy, a) !in seen
  {
    if exists k | 0 <= k < |policy.required| :: policy.required[k] !in a {
      return Err(FieldsMissing);
    }
    var id := AttemptId(policy, a);
    if id == "" || id in seen {
      return Err(AttemptIdInvalid);
    }
    if !Among(Get(a, "outcome"), policy.outcomes) {
      return Err(OutcomeInvalid);
    }
    if !Present(a, "verification_evidence") {
      return Err(VerificationEvidenceMissing);
    }
    if previous.Some? && Failed(previous.value) {
      var _ :- CheckAgainstPrior(policy, previous.value, a, run);
    }
    if Failed(a) {
      var _ :- RequireFailedFields(policy, a);
    }
    r := Ok(a);
  }

  ghost predicate HoldsIds(seen: set<string>, policy: Policy, attempts: seq<Attempt>) {
    forall id :: id in seen <==> exists k :: 0 <= k < |attempts| && AttemptId(policy, attempts[k]) == id
  }

  lemma NewIdIsUnseen(seen: set<string>, policy: Policy, attempts: seq<Attempt>, next: Attempt)
    requires HoldsIds(seen, policy, attempts)
    ensures IsNewId(policy, attempts, next) <==> AttemptId(policy, next) !in seen
    ensures HoldsIds(seen + {AttemptId(policy, next)}, policy, attempts + [next])
  {
    var grown := attempts + [next];
    forall id ensures id in seen + {AttemptId(policy, next)} <==> exists k :: 0 <= k < |grown| && AttemptId(policy, grown[k]) == id {
      if id in seen {
        var k :| 0 <= k < |attempts| && AttemptId(policy, attempts[k]) == id;
        assert grown[k] == attempts[k];
      }
      assert grown[|attempts|] == next;
    }
  }

  /** What the check of attempt i decides about the whole list. */
  lemma OneCheckDecides(policy: Policy, attempts: seq<Attempt>, i: nat, seen: set<string>)
    requires i < |attempts| && Accepted(policy, attempts[..i]) && HoldsIds(seen, policy, attempts[..i])
    ensures var a, before := attempts[i], attempts[..i];
            var passed := Step(policy, Previous(before), a, RunBefore(before, i)) && AttemptId(policy, a) !in seen;
            && (passed ==> Accepted(policy, attempts[..i + 1]))
            && (passed ==> HoldsIds(seen + {AttemptId(policy, a)}, policy, attempts[..i + 1]))
            && (!passed ==> !Accepted(policy, attempts))
    ensures RunBefore(attempts[..i + 1], i + 1) == if Failed(attempts[i]) then RunBefore(attempts[..i], i) + 1 else 0
    ensures Previous(attempts[..i + 1]) == Some(attempts[i])
  {
    var a, before := attempts[i], attempts[..i];
    assert attempts[..i + 1] == before + [a];
    NewIdIsUnseen(seen, policy, before, a);
    AcceptedGrows(policy, before, a);
    RunBeforeIgnoresLater(before, a, i);
    if Accepted(policy, attempts) { AcceptedPrefix(policy, attempts, i + 1); }
  }

  lemma NothingIsAccepted(policy: Policy)
    ensures Accepted(policy, []) && HoldsIds({}, policy, []) && RunBefore([], 0) == 0 && Previous([]) == None
  {
  }

  /** One check of the pass, in terms of the list as far as it was read. */
  method CheckNext(policy: Policy, previous: Option<Attempt>, a: Attempt, run: nat, seen: set<string>,
                   ghost attempts: seq<Attempt>, ghost i: nat)
    returns (r: Result<Attempt, AttemptError>)
    requires i < |attempts| && a == attempts[i]
    requires Accepted(policy, attempts[..i]) && HoldsIds(seen, policy, attempts[..i])
    requires previous == Previous(attempts[..i]) && run == RunBefore(attempts[..i], i)
    ensures r.Ok? ==> Accepted(policy, attempts[..i + 1])
    ensures r.Ok? ==> HoldsIds(seen + {AttemptId(policy, a)}, policy, attempts[..i + 1])
    ensures r.Err? ==> !Accepted(policy, attempts)
    ensures RunBefore(attempts[..i + 1], i + 1) == if Failed(a) then run + 1 else 0
    ensures Previous(attempts[..i + 1]) == Some(a)
  {
    r := CheckAttempt(policy, previous, a, run, seen);
    OneCheckDecides(policy, attempts, i, seen);
  }

  /** One pass with the previous attempt, the failure counter and the set of seen ids. */
  method CheckAttempts(policy: Policy, attempts: seq<Attempt>) returns (r: Result<nat, AttemptError>)
    ensures r.Ok? <==> Accepted(policy, attempts)
    ensures r.Ok? ==> r.value == RunBefore(attempts, |attempts|)
  {
    var seen: set<string> := {};
    var previous: Option<Attempt> := None;
    var run := 0;
    NothingIsAccepted(policy);
    assert attempts[..0] == [];
    for i := 0 to |attempts|
      invariant Accepted(policy, attempts[..i])
      invariant HoldsIds(seen, policy, attempts[..i])
      invariant previous == Previous(attempts[..i])
      invariant run == RunBefore(attempts[..i], i)
    {
      var a := attempts[i];
      var checked := CheckNext(policy, previous, a, run, seen, attempts, i);
      if checked.Err? {
        return Err(checked.error);
      }
      seen := seen + {AttemptId(policy, a)};
      run := if Failed(a) then run + 1 else 0;
      previous := Some(a);
    }
    assert attempts[..|attempts|] == attempts;
    r := Ok(run);
  }

  /** The attempts of a lane, when its field is a list of objects. */
  function AttemptsOf(lane: Lane): Option<seq<Attempt>> {
    if lane.attempts.List? && forall i | 0 <= i < |lane.attempts.items| :: lane.attempts.items[i].Object?
    then
      var items := lane.attempts.items;
      Some(seq(|items|, i requires 0 <= i < |items| && items[i].Object? => items[i].fields))
    else None
  }

  method ValidateAttempts(policy: Policy, lane: Lane) returns (r: Result<seq<Attempt>, AttemptError>)
    ensures r.Ok? <==>
      && AttemptsOf(lane).Some? && Accepted(policy, AttemptsOf(lane).value)
      && StatusSupported(policy, lane.status, AttemptsOf(lane).value)
    ensures r.Ok? ==> Some(r.value) == AttemptsOf(lane)
  {
    if AttemptsOf(lane).None? {
      return Err(if lane.attempts.List? then AttemptNotObject else AttemptsNotList);
    }
    var attempts := AttemptsOf(lane).value;
    var _ :- CheckAttempts(policy, attempts);
    if lane.status == policy.success && (attempts == [] || !HasOutcome(attempts[|attempts| - 1], "PASS")) {
      return Err(PassWithoutPass);
    }
    if lane.status == "HARD_FAILED" {
      if attempts == [] || !Failed(attempts[|attempts| - 1]) {
        return Err(HardFailedWithoutFail);
      }
      if |Families(policy, attempts)| < policy.minFamilies {
        return Err(TooFewFamilies);
      }
    }
    r := Ok(attempts);
  }
}
