/** Dead ends are real: under every policy some accepted lists of failures can never be continued. */
module GovernanceDeadEnds {
  import opened GovernanceAttempts
  import opened GovernanceLaws

  /** Failures are allowed, with and without logs. */
  predicate AllowsFailures(policy: Policy) {
    "FAIL" in policy.outcomes && "AVAILABLE" in policy.logStates && "MISSING" in policy.logStates
  }

  function FailureFields(policy: Policy): set<string> {
    (set f | f in policy.required) + (set f | f in policy.failedFields) + (set f | f in policy.missingLogFields)
    + {"attempt_id", "outcome", "strategy_family", "log_state", "prior_failure_diagnosis_ref", "verification_evidence",
       "log_evidence"}
  }

  function FailureText(field: string, id: string, quoted: string, family: string, log: string): string {
    if field == "attempt_id" then id
    else if field == "outcome" then "FAIL"
    else if field == "strategy_family" then family
    else if field == "log_state" then log
    else if field == "prior_failure_diagnosis_ref" then quoted
    else "x"
  }

  /** A failed attempt that records everything it is asked to record. */
  function Failure(policy: Policy, id: string, quoted: string, family: string, log: string): Attempt {
    map f | f in FailureFields(policy) :: Text(FailureText(f, id, quoted, family, log))
  }

  predicate NotBlank(s: string) {
    Strip(s) != ""
  }

  lemma FailureTextIsNotBlank(field: string, id: string, quoted: string, family: string, log: string)
    requires NotBlank(id) && NotBlank(quoted) && NotBlank(family) && NotBlank(log)
    ensures NotBlank(FailureText(field, id, quoted, family, log))
  {
    PlainTextIsNotBlank("FAIL");
    PlainTextIsNotBlank("x");
  }

  lemma FailureField(policy: Policy, id: string, quoted: string, family: string, log: string, field: string)
    requires NotBlank(id) && NotBlank(quoted) && NotBlank(family) && NotBlank(log) && field in FailureFields(policy)
    ensures Present(Failure(policy, id, quoted, family, log), field)
  {
    FailureTextIsNotBlank(field, id, quoted, family, log);
  }

  lemma FailureShape(policy: Policy, id: string, quoted: string, family: string, log: string)
    ensures var a := Failure(policy, id, quoted, family, log);
            && Failed(a) && Get(a, "attempt_id") == Text(id) && AttemptId(policy, a) == Strip(id)
            && Get(a, "strategy_family") == Text(family) && Get(a, "log_state") == Text(log)
            && Mention(policy, a, "prior_failure_diagnosis_ref") == Strip(quoted)
  {
  }

  lemma FailureIsRecorded(policy: Policy, id: string, quoted: string, family: string, log: string)
    requires NotBlank(id) && NotBlank(quoted) && NotBlank(family) && NotBlank(log)
    requires log in policy.logStates && log in {"AVAILABLE", "MISSING"}
    ensures FailureRecorded(policy, Failure(policy, id, quoted, family, log))
  {
    var a := Failure(policy, id, quoted, family, log);
    FailureShape(policy, id, quoted, family, log);
    forall i | 0 <= i < |policy.failedFields| ensures policy.failedFields[i] in a && Present(a, policy.failedFields[i]) {
      assert policy.failedFields[i] in policy.failedFields;
      FailureField(policy, id, quoted, family, log, policy.failedFields[i]);
    }
    forall i | 0 <= i < |policy.missingLogFields| ensures Present(a, policy.missingLogFields[i]) {
      assert policy.missingLogFields[i] in policy.missingLogFields;
      FailureField(policy, id, quoted, family, log, policy.missingLogFields[i]);
    }
    FailureField(policy, id, quoted, family, log, "log_evidence");
  }

  lemma FailureIsSound(policy: Policy, id: string, quoted: string, family: string, log: string)
    requires NotBlank(id) && NotBlank(quoted) && NotBlank(family) && NotBlank(log)
    requires "FAIL" in policy.outcomes && log in policy.logStates && log in {"AVAILABLE", "MISSING"}
    ensures AttemptSound(policy, Failure(policy, id, quoted, family, log))
  {
    FailureShape(policy, id, quoted, family, log);
    FailureIsRecorded(policy, id, quoted, family, log);
    FailureField(policy, id, quoted, family, log, "verification_evidence");
    var a := Failure(policy, id, quoted, family, log);
    forall i | 0 <= i < |policy.required| ensures policy.required[i] in a {
      assert policy.required[i] in policy.required;
    }
  }

  /** A list that ends in a failure with a quotable id, in this strategy family and with these logs. */
  predicate EndsIn(policy: Policy, attempts: seq<Attempt>, id: string, family: string, log: string) {
    && attempts != []
    && var last := attempts[|attempts| - 1];
    && Failed(last) && Get(last, "attempt_id") == Text(id) && NotBlank(id) && Strip(id) == id
    && Get(last, "strategy_family") == Text(family) && Get(last, "log_state") == Text(log)
  }

  /** A list that ends in a readable failure can go on failing, in any other family. */
  lemma OneMoreFailure(policy: Policy, attempts: seq<Attempt>, id: string, family: string, next: string, log: string)
    returns (grown: seq<Attempt>, newId: string)
    requires AllowsFailures(policy) && Accepted(policy, attempts) && EndsIn(policy, attempts, id, family, "AVAILABLE")
    requires next != family && NotBlank(next) && log in {"AVAILABLE", "MISSING"}
    ensures Accepted(policy, grown) && EndsIn(policy, grown, newId, next, log)
    ensures |grown| == |attempts| + 1 && RunBefore(grown, |grown|) == RunBefore(attempts, |attempts|) + 1
  {
    newId := FreshId(policy, attempts);
    FreshIdIsPlain(policy, attempts);
    LogNamesAreNotBlank();
    var a := Failure(policy, newId, id, next, log);
    grown := attempts + [a];
    FailureShape(policy, newId, id, next, log);
    FailureIsSound(policy, newId, id, next, log);
    FreshIdIsNew(policy, attempts, a);
    FailureAnswers(policy, attempts, id, family, a);
    AcceptedGrows(policy, attempts, a);
    RunBeforeIgnoresLater(attempts, a, |attempts|);
  }

  lemma LogNamesAreNotBlank()
    ensures NotBlank("AVAILABLE") && NotBlank("MISSING")
  {
    PlainTextIsNotBlank("AVAILABLE");
    PlainTextIsNotBlank("MISSING");
  }

  lemma FreshIdIsNew(policy: Policy, attempts: seq<Attempt>, a: Attempt)
    requires AttemptId(policy, a) == FreshId(policy, attempts)
    ensures IsNewId(policy, attempts, a)
  {
    MarkIsPlain(LongestId(policy, attempts) + 1);
    forall i | 0 <= i < |attempts| ensures |AttemptId(policy, attempts[i])| <= LongestId(policy, attempts) {
      LongestIdIsLongest(policy, attempts, i);
    }
  }

  lemma FailureAnswers(policy: Policy, attempts: seq<Attempt>, id: string, family: string, a: Attempt)
    requires EndsIn(policy, attempts, id, family, "AVAILABLE") && AttemptSound(policy, a)
    requires Mention(policy, a, "prior_failure_diagnosis_ref") == id && Get(a, "strategy_family") != Text(family)
    ensures Fits(policy, attempts, a)
  {
    assert "AVAILABLE"[0] == 'A' && "MISSING"[0] == 'M';
  }

  lemma FirstFailure(policy: Policy, id: string) returns (attempts: seq<Attempt>)
    requires AllowsFailures(policy) && NotBlank(id)
    ensures attempts == [Failure(policy, id, "x", "logic_trace", "AVAILABLE")]
    ensures Accepted(policy, attempts) && RunBefore(attempts, 1) == 1
  {
    LogNamesAreNotBlank();
    PlainTextIsNotBlank("x");
    PlainTextIsNotBlank("logic_trace");
    FailureShape(policy, id, "x", "logic_trace", "AVAILABLE");
    FailureIsSound(policy, id, "x", "logic_trace", "AVAILABLE");
    NothingIsAccepted(policy);
    var a := Failure(policy, id, "x", "logic_trace", "AVAILABLE");
    AcceptedGrows(policy, [], a);
    attempts := [] + [a];
  }

  lemma FirstEndsIn(policy: Policy)
    ensures EndsIn(policy, [Failure(policy, "x", "x", "logic_trace", "AVAILABLE")], "x", "logic_trace", "AVAILABLE")
  {
    PlainTextIsStripped("x");
    FailureShape(policy, "x", "x", "logic_trace", "AVAILABLE");
  }

  function OtherFamily(family: string): string {
    if family == "logic_trace" then "minimal_reproduction" else "logic_trace"
  }

  lemma OtherFamilyDiffers(family: string)
    ensures OtherFamily(family) != family && NotBlank(OtherFamily(family))
    ensures OtherFamily(family) != "targeted_instrumentation"
  {
    assert OtherFamily(family)[0] in {'l', 'm'} && "targeted_instrumentation"[0] == 't';
    PlainTextIsNotBlank(OtherFamily(family));
  }

  /** Any number of failures in a row can be accepted. */
  lemma {:induction false} FailingRun(policy: Policy, n: nat) returns (attempts: seq<Attempt>, id: string, family: string)
    requires AllowsFailures(policy) && n >= 1
    ensures Accepted(policy, attempts) && EndsIn(policy, attempts, id, family, "AVAILABLE")
    ensures |attempts| == n && RunBefore(attempts, |attempts|) == n && family != "targeted_instrumentation"
  {
    if n == 1 {
      id, family := "x", "logic_trace";
      PlainTextIsNotBlank("x");
      attempts := FirstFailure(policy, "x");
      FirstEndsIn(policy);
      OtherFamilyDiffers("");
    } else {
      var before, lastId, lastFamily := FailingRun(policy, n - 1);
      family := OtherFamily(lastFamily);
      OtherFamilyDiffers(lastFamily);
      attempts, id := OneMoreFailure(policy, before, lastId, lastFamily, family, "AVAILABLE");
    }
  }

  /** Under every policy an instrumented failure without logs, late enough in a run of failures, is a dead end. */
  lemma FamilyDeadEnd(policy: Policy) returns (attempts: seq<Attempt>)
    requires AllowsFailures(policy)
    ensures Accepted(policy, attempts) && DeadEnd(policy, attempts)
    ensures var id := Rendered(policy, Get(attempts[|attempts| - 1], "attempt_id")); Strip(id) == id
  {
    var n := if policy.threshold <= 2 then 1 else policy.threshold - 1;
    var before, id, family := FailingRun(policy, n);
    PlainTextIsNotBlank("targeted_instrumentation");
    var newId;
    attempts, newId := OneMoreFailure(policy, before, id, family, "targeted_instrumentation", "MISSING");
    LateMissingLogsEnd(policy, attempts, newId);
  }

  lemma LateMissingLogsEnd(policy: Policy, attempts: seq<Attempt>, id: string)
    requires EndsIn(policy, attempts, id, "targeted_instrumentation", "MISSING")
    requires RunBefore(attempts, |attempts|) >= policy.threshold
    ensures DeadEnd(policy, attempts)
  {
  }

  /** Under every policy a failure whose id is surrounded by white space is a dead end, even with its logs. */
  lemma IdDeadEnd(policy: Policy) returns (attempts: seq<Attempt>)
    requires AllowsFailures(policy)
    ensures Accepted(policy, attempts) && DeadEnd(policy, attempts)
    ensures !LogMissing(attempts[|attempts| - 1])
  {
    assert Strip(" x") == "x";
    attempts := FirstFailure(policy, " x");
    FailureShape(policy, " x", "x", "logic_trace", "AVAILABLE");
    assert "AVAILABLE"[0] == 'A' && "MISSING"[0] == 'M';
  }
}
