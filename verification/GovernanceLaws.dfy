/** What accepted attempt lists guarantee over whole runs of failures, and when a lane can still go on. */
module GovernanceLaws {
  import opened Counting
  import opened GovernanceAttempts

  // ---------- Runs of failures ----------

  predicate FailBlock(attempts: seq<Attempt>, from: nat, length: nat) {
    from + length <= |attempts| && forall i | from <= i < from + length :: Failed(attempts[i])
  }

  lemma {:induction false} BlockLengthensRun(attempts: seq<Attempt>, from: nat, length: nat)
    requires FailBlock(attempts, from, length)
    ensures RunBefore(attempts, from + length) >= length
  {
    if length > 0 { BlockLengthensRun(attempts, from, length - 1); }
  }

  /** After as many failures as the threshold, the next attempt leaves the last strategy family. */
  lemma RepeatedFailureChangesStrategy(policy: Policy, attempts: seq<Attempt>, from: nat, length: nat)
    requires Accepted(policy, attempts) && FailBlock(attempts, from, length)
    requires length >= 1 && length >= policy.threshold && from + length < |attempts|
    ensures Get(attempts[from + length], "strategy_family") != Get(attempts[from + length - 1], "strategy_family")
  {
    BlockLengthensRun(attempts, from, length);
    assert StepSound(policy, attempts, from + length);
  }

  ghost function FamilyValues(attempts: seq<Attempt>, from: nat, length: nat): set<Value>
    requires from + length <= |attempts|
  {
    set i | from <= i < from + length :: Get(attempts[i], "strategy_family")
  }

  /** Every block of threshold + 1 attempts whose first threshold ones fail uses two strategy families. */
  lemma BlocksUseTwoFamilies(policy: Policy, attempts: seq<Attempt>, from: nat)
    requires Accepted(policy, attempts) && policy.threshold >= 1
    requires FailBlock(attempts, from, policy.threshold) && from + policy.threshold < |attempts|
    ensures |FamilyValues(attempts, from, policy.threshold + 1)| >= 2
  {
    var last := from + policy.threshold;
    RepeatedFailureChangesStrategy(policy, attempts, from, policy.threshold);
    var a, b := Get(attempts[last], "strategy_family"), Get(attempts[last - 1], "strategy_family");
    assert {a, b} <= FamilyValues(attempts, from, policy.threshold + 1);
    SubsetSize({a, b}, FamilyValues(attempts, from, policy.threshold + 1));
  }

  /** A failure with missing logs is followed by a readable failure or by a pass. */
  lemma MissingLogsAreNeverRepeated(policy: Policy, attempts: seq<Attempt>, i: nat)
    requires Accepted(policy, attempts) && i + 1 < |attempts|
    requires Failed(attempts[i]) && LogMissing(attempts[i])
    ensures Get(attempts[i + 1], "strategy_family") == Text("targeted_instrumentation")
    ensures !(Failed(attempts[i + 1]) && LogMissing(attempts[i + 1]))
  {
    assert StepSound(policy, attempts, i + 1);
  }

  ghost function MissingCount(attempts: seq<Attempt>, from: nat, length: nat): nat
    requires from + length <= |attempts|
  {
    if length == 0 then 0
    else MissingCount(attempts, from, length - 1) + if LogMissing(attempts[from + length - 1]) then 1 else 0
  }

  /** Of n consecutive failures at most half, rounded up, have missing logs. */
  lemma MissingLogsAreAtMostHalf(policy: Policy, attempts: seq<Attempt>, from: nat, length: nat)
    requires Accepted(policy, attempts) && FailBlock(attempts, from, length)
    ensures 2 * MissingCount(attempts, from, length) <= length + 1
  {
    forall i | from <= i < from + length - 1 && LogMissing(attempts[i]) ensures !LogMissing(attempts[i + 1]) {
      MissingLogsAreNeverRepeated(policy, attempts, i);
    }
    AlternationIsAtMostHalf(attempts, from, length);
  }

  lemma {:induction false} AlternationIsAtMostHalf(attempts: seq<Attempt>, from: nat, length: nat)
    requires from + length <= |attempts|
    requires forall i | from <= i < from + length - 1 && LogMissing(attempts[i]) :: !LogMissing(attempts[i + 1])
    ensures 2 * MissingCount(attempts, from, length) <= length + 1
    ensures length > 0 && !LogMissing(attempts[from + length - 1]) ==> 2 * MissingCount(attempts, from, length) <= length
  {
    if length > 0 {
      AlternationIsAtMostHalf(attempts, from, length - 1);
    }
  }

  // ---------- Dead ends ----------

  /**
    The last attempt forbids every continuation: its id cannot be quoted after trimming, or it was an
    instrumented failure without logs at a point where the next attempt must both keep and leave the
    instrumentation family.
  */
  predicate DeadEnd(policy: Policy, attempts: seq<Attempt>) {
    && attempts != []
    && var last := attempts[|attempts| - 1];
    && Failed(last)
    && var id := Rendered(policy, Get(last, "attempt_id"));
    && (Strip(id) != id
        || (LogMissing(last) && RunBefore(attempts, |attempts|) >= policy.threshold
            && Get(last, "strategy_family") == Text("targeted_instrumentation")))
  }

  predicate CanContinue(policy: Policy, attempts: seq<Attempt>, next: Attempt) {
    Accepted(policy, attempts + [next])
  }

  /** A non-empty text without white space. */
  function Mark(length: nat): string {
    if length == 0 then "" else Mark(length - 1) + "x"
  }

  lemma {:induction false} MarkIsPlain(length: nat)
    ensures |Mark(length)| == length && forall i | 0 <= i < length :: Mark(length)[i] == 'x'
  {
    if length > 0 { MarkIsPlain(length - 1); }
  }

  lemma PlainTextIsStripped(s: string)
    requires s == "" || (!IsSpace(s[0]) && !IsSpace(s[|s| - 1]))
    ensures Strip(s) == s
  {
  }

  /** Longer than every id in the list. */
  function LongestId(policy: Policy, attempts: seq<Attempt>): nat {
    if attempts == [] then 0
    else
      var before, here := LongestId(policy, attempts[..|attempts| - 1]), |AttemptId(policy, attempts[|attempts| - 1])|;
      if before < here then here else before
  }

  lemma {:induction false} LongestIdIsLongest(policy: Policy, attempts: seq<Attempt>, i: nat)
    requires i < |attempts|
    ensures |AttemptId(policy, attempts[i])| <= LongestId(policy, attempts)
  {
    var n := |attempts| - 1;
    if i < n {
      LongestIdIsLongest(policy, attempts[..n], i);
    }
  }

  function FreshId(policy: Policy, attempts: seq<Attempt>): string {
    Mark(LongestId(policy, attempts) + 1)
  }

  /** The family with which the next attempt may go on. */
  function NextFamily(attempts: seq<Attempt>): string {
    if attempts != [] && LogMissing(attempts[|attempts| - 1]) then "targeted_instrumentation"
    else if attempts != [] && Get(attempts[|attempts| - 1], "strategy_family") == Text("logic_trace") then "minimal_reproduction"
    else "logic_trace"
  }

  function NextText(policy: Policy, attempts: seq<Attempt>, field: string): string {
    if field == "attempt_id" then FreshId(policy, attempts)
    else if field == "outcome" then "PASS"
    else if field == "strategy_family" then NextFamily(attempts)
    else if field == "prior_failure_diagnosis_ref" && attempts != []
    then Rendered(policy, Get(attempts[|attempts| - 1], "attempt_id"))
    else "x"
  }

  function NextFields(policy: Policy): set<string> {
    (set f | f in policy.required) + (set f | f in policy.instrumentedFields)
    + {"attempt_id", "outcome", "strategy_family", "prior_failure_diagnosis_ref", "verification_evidence", "rerun_justification"}
  }

  /** A passing attempt that answers everything the list demands. */
  function Continuation(policy: Policy, attempts: seq<Attempt>): Attempt {
    map f | f in NextFields(policy) :: Text(NextText(policy, attempts, f))
  }

  lemma FreshIdIsPlain(policy: Policy, attempts: seq<Attempt>)
    ensures FreshId(policy, attempts) != "" && Strip(FreshId(policy, attempts)) == FreshId(policy, attempts)
  {
    MarkIsPlain(LongestId(policy, attempts) + 1);
    PlainTextIsStripped(FreshId(policy, attempts));
  }

  lemma PlainTextIsNotBlank(s: string)
    requires s != "" && !IsSpace(s[0]) && !IsSpace(s[|s| - 1])
    ensures Strip(s) != ""
  {
    PlainTextIsStripped(s);
  }

  lemma NextIdIsNotBlank(policy: Policy, attempts: seq<Attempt>)
    ensures Strip(NextText(policy, attempts, "attempt_id")) != ""
  {
    FreshIdIsPlain(policy, attempts);
  }

  lemma NextOutcomeIsNotBlank(policy: Policy, attempts: seq<Attempt>)
    ensures Strip(NextText(policy, attempts, "outcome")) != ""
  {
    PlainTextIsNotBlank(NextText(policy, attempts, "outcome"));
  }

  lemma NextFamilyIsNotBlank(policy: Policy, attempts: seq<Attempt>)
    ensures Strip(NextText(policy, attempts, "strategy_family")) != ""
  {
    PlainTextIsNotBlank(NextFamily(attempts));
  }

  lemma NextOtherIsNotBlank(policy: Policy, attempts: seq<Attempt>, field: string)
    requires field !in {"attempt_id", "outcome", "strategy_family"}
    requires attempts != [] ==> AttemptId(policy, attempts[|attempts| - 1]) != ""
    ensures Strip(NextText(policy, attempts, field)) != ""
  {
    if attempts == [] || field != "prior_failure_diagnosis_ref" {
      PlainTextIsNotBlank(NextText(policy, attempts, field));
    }
  }

  lemma NextTextIsNotBlank(policy: Policy, attempts: seq<Attempt>, field: string)
    requires attempts != [] ==> AttemptId(policy, attempts[|attempts| - 1]) != ""
    ensures Strip(NextText(policy, attempts, field)) != ""
  {
    if field == "attempt_id" {
      NextIdIsNotBlank(policy, attempts);
    } else if field == "outcome" {
      NextOutcomeIsNotBlank(policy, attempts);
    } else if field == "strategy_family" {
      NextFamilyIsNotBlank(policy, attempts);
    } else {
      NextOtherIsNotBlank(policy, attempts, field);
    }
  }

  lemma ContinuationField(policy: Policy, attempts: seq<Attempt>, field: string)
    requires field in NextFields(policy)
    requires attempts != [] ==> AttemptId(policy, attempts[|attempts| - 1]) != ""
    ensures Get(Continuation(policy, attempts), field) == Text(NextText(policy, attempts, field))
    ensures Present(Continuation(policy, attempts), field)
  {
    NextTextIsNotBlank(policy, attempts, field);
  }

  /** The named fields of the continuation. */
  lemma ContinuationShape(policy: Policy, attempts: seq<Attempt>)
    ensures var next := Continuation(policy, attempts);
            && Get(next, "outcome") == Text("PASS") && !Failed(next)
            && Get(next, "strategy_family") == Text(NextFamily(attempts))
            && Mention(policy, next, "rerun_justification") == "x"
  {
  }

  lemma ContinuationIsFresh(policy: Policy, attempts: seq<Attempt>)
    ensures AttemptId(policy, Continuation(policy, attempts)) == FreshId(policy, attempts) != ""
  {
    FreshIdIsPlain(policy, attempts);
    assert Get(Continuation(policy, attempts), "attempt_id") == Text(FreshId(policy, attempts));
  }

  lemma ContinuationIsSound(policy: Policy, attempts: seq<Attempt>)
    requires "PASS" in policy.outcomes
    requires attempts != [] ==> AttemptId(policy, attempts[|attempts| - 1]) != ""
    ensures AttemptSound(policy, Continuation(policy, attempts))
  {
    ContinuationShape(policy, attempts);
    ContinuationIsFresh(policy, attempts);
    ContinuationField(policy, attempts, "verification_evidence");
  }

  lemma ContinuationIsInstrumented(policy: Policy, attempts: seq<Attempt>)
    requires attempts != [] && AttemptId(policy, attempts[|attempts| - 1]) != "" && LogMissing(attempts[|attempts| - 1])
    ensures Instrumented(policy, Continuation(policy, attempts))
  {
    ContinuationShape(policy, attempts);
    forall i | 0 <= i < |policy.instrumentedFields|
      ensures Present(Continuation(policy, attempts), policy.instrumentedFields[i])
    {
      assert policy.instrumentedFields[i] in policy.instrumentedFields;
      ContinuationField(policy, attempts, policy.instrumentedFields[i]);
    }
  }

  lemma ContinuationQuotesPrior(policy: Policy, attempts: seq<Attempt>)
    requires attempts != [] && AttemptId(policy, attempts[|attempts| - 1]) != ""
    requires Strip(Rendered(policy, Get(attempts[|attempts| - 1], "attempt_id")))
             == Rendered(policy, Get(attempts[|attempts| - 1], "attempt_id"))
    ensures QuotesPrior(policy, attempts[|attempts| - 1], Continuation(policy, attempts))
  {
  }

  lemma NextFamilyIsNew(attempts: seq<Attempt>)
    requires attempts != [] && !LogMissing(attempts[|attempts| - 1])
    ensures Text(NextFamily(attempts)) != Get(attempts[|attempts| - 1], "strategy_family")
  {
  }

  lemma ContinuationVariesStrategy(policy: Policy, attempts: seq<Attempt>)
    requires attempts != []
    requires LogMissing(attempts[|attempts| - 1]) && RunBefore(attempts, |attempts|) >= policy.threshold ==>
               Get(attempts[|attempts| - 1], "strategy_family") != Text("targeted_instrumentation")
    ensures VariesStrategy(policy, attempts[|attempts| - 1], Continuation(policy, attempts), RunBefore(attempts, |attempts|))
  {
    ContinuationShape(policy, attempts);
    if LogMissing(attempts[|attempts| - 1]) {
      assert NextFamily(attempts) == "targeted_instrumentation";
    } else {
      NextFamilyIsNew(attempts);
    }
  }

  lemma ContinuationAnswers(policy: Policy, attempts: seq<Attempt>)
    requires attempts != [] && AttemptId(policy, attempts[|attempts| - 1]) != "" && Failed(attempts[|attempts| - 1])
    requires !DeadEnd(policy, attempts)
    ensures Answers(policy, attempts[|attempts| - 1], Continuation(policy, attempts), RunBefore(attempts, |attempts|))
  {
    ContinuationQuotesPrior(policy, attempts);
    ContinuationVariesStrategy(policy, attempts);
    if LogMissing(attempts[|attempts| - 1]) {
      ContinuationIsInstrumented(policy, attempts);
    }
  }

  /** An accepted list can be continued at all exactly when it is no dead end, and then by a pass. */
  lemma ContinuableUnlessDeadEnd(policy: Policy, attempts: seq<Attempt>)
    requires Accepted(policy, attempts) && "PASS" in policy.outcomes
    ensures (exists next :: CanContinue(policy, attempts, next)) <==> !DeadEnd(policy, attempts)
    ensures !DeadEnd(policy, attempts) ==> CanContinue(policy, attempts, Continuation(policy, attempts))
  {
    if !DeadEnd(policy, attempts) {
      ContinuationFits(policy, attempts);
      AcceptedGrows(policy, attempts, Continuation(policy, attempts));
      assert CanContinue(policy, attempts, Continuation(policy, attempts));
    } else {
      forall next | CanContinue(policy, attempts, next) ensures false {
        AcceptedGrows(policy, attempts, next);
        DeadEndRefuses(policy, attempts, next);
      }
    }
  }

  lemma ContinuationFits(policy: Policy, attempts: seq<Attempt>)
    requires Accepted(policy, attempts) && "PASS" in policy.outcomes && !DeadEnd(policy, attempts)
    ensures IsNewId(policy, attempts, Continuation(policy, attempts)) && Fits(policy, attempts, Continuation(policy, attempts))
  {
    if attempts != [] { assert StepSound(policy, attempts, |attempts| - 1); }
    ContinuationIsSound(policy, attempts);
    if attempts != [] && Failed(attempts[|attempts| - 1]) { ContinuationAnswers(policy, attempts); }
    forall i | 0 <= i < |attempts| ensures |AttemptId(policy, attempts[i])| <= LongestId(policy, attempts) {
      LongestIdIsLongest(policy, attempts, i);
    }
    MarkIsPlain(LongestId(policy, attempts) + 1);
    ContinuationIsFresh(policy, attempts);
  }

  lemma DeadEndRefuses(policy: Policy, attempts: seq<Attempt>, next: Attempt)
    requires DeadEnd(policy, attempts)
    ensures !Answers(policy, attempts[|attempts| - 1], next, RunBefore(attempts, |attempts|))
  {
  }

  /** No accepted list passes through a dead end, so a lane that reaches one can never end in success. */
  lemma AcceptedListsAvoidDeadEnds(policy: Policy, attempts: seq<Attempt>, i: nat)
    requires Accepted(policy, attempts) && i < |attempts|
    ensures !DeadEnd(policy, attempts[..i])
  {
    AcceptedPrefix(policy, attempts, i);
    AcceptedPrefix(policy, attempts, i + 1);
    assert attempts[..i + 1] == attempts[..i] + [attempts[i]];
    AcceptedGrows(policy, attempts[..i], attempts[i]);
    if DeadEnd(policy, attempts[..i]) { DeadEndRefuses(policy, attempts[..i], attempts[i]); }
  }

  // ---------- What a supported status says ----------

  /** A lane that passed has a successor for each failed attempt, which quotes it and answers a missing log. */
  lemma PassAnswersEveryFailure(policy: Policy, attempts: seq<Attempt>, i: nat)
    requires Accepted(policy, attempts) && StatusSupported(policy, policy.success, attempts)
    requires i < |attempts| && Failed(attempts[i])
    ensures i + 1 < |attempts|
    ensures Mention(policy, attempts[i + 1], "prior_failure_diagnosis_ref") == Rendered(policy, Get(attempts[i], "attempt_id"))
    ensures LogMissing(attempts[i]) ==> Get(attempts[i + 1], "strategy_family") == Text("targeted_instrumentation")
  {
    assert "PASS"[0] != "FAIL"[0];
    assert StepSound(policy, attempts, i + 1);
  }

  /** A hard failure took at least as many attempts as families, and its last attempt failed and is on record. */
  lemma HardFailureIsOnRecord(policy: Policy, attempts: seq<Attempt>)
    requires Accepted(policy, attempts) && StatusSupported(policy, "HARD_FAILED", attempts)
    ensures attempts != [] && |attempts| >= policy.minFamilies
    ensures var last := attempts[|attempts| - 1];
            && Get(last, "outcome") == Text("FAIL")
            && (forall field | field in policy.failedFields :: field in last && (field == "log_state" || Present(last, field)))
            && (Get(last, "log_state") == Text("AVAILABLE") ==> Present(last, "log_evidence"))
            && (Get(last, "log_state") != Text("AVAILABLE") ==>
                  forall field | field in policy.missingLogFields :: Present(last, field))
  {
    assert StepSound(policy, attempts, |attempts| - 1);
    FamiliesAreFew(policy, attempts);
  }

  lemma {:induction false} FamiliesAreFew(policy: Policy, attempts: seq<Attempt>)
    ensures |Families(policy, attempts)| <= |attempts|
  {
    if attempts == [] {
      assert Families(policy, attempts) == {};
    } else {
      var n := |attempts| - 1;
      FamiliesAreFew(policy, attempts[..n]);
      var rest, last := Families(policy, attempts[..n]), FamilyText(policy, attempts[n]);
      forall f | f in Families(policy, attempts) ensures f in rest + {last} {
        var i: nat :| i < |attempts| && FamilyText(policy, attempts[i]) == f;
        if i < n { assert attempts[..n][i] == attempts[i]; }
      }
      SubsetSize(Families(policy, attempts), rest + {last});
    }
  }

  /** Attempts of these positions use pairwise different strategy families. */
  predicate Different(policy: Policy, attempts: seq<Attempt>, picks: seq<nat>) {
    && (forall i | 0 <= i < |picks| :: picks[i] < |attempts|)
    && (forall i, j | 0 <= i < j < |picks| ::
          FamilyText(policy, attempts[picks[i]]) != FamilyText(policy, attempts[picks[j]]))
  }

  /** A hard failure is supported exactly when the last attempt failed and enough attempts differ in their families. */
  lemma HardFailureMeaning(policy: Policy, attempts: seq<Attempt>)
    requires policy.success != "HARD_FAILED"
    ensures StatusSupported(policy, "HARD_FAILED", attempts) <==>
              && attempts != [] && Get(attempts[|attempts| - 1], "outcome") == Text("FAIL")
              && exists picks :: Different(policy, attempts, picks) && |picks| >= policy.minFamilies
  {
    var all := PickFamilies(policy, attempts, Families(policy, attempts));
    forall picks | Different(policy, attempts, picks) ensures |picks| <= |Families(policy, attempts)| {
      PicksAreFew(policy, attempts, picks, Families(policy, attempts));
    }
  }

  lemma {:induction false} PickFamilies(policy: Policy, attempts: seq<Attempt>, families: set<string>) returns (picks: seq<nat>)
    requires families <= Families(policy, attempts)
    ensures Different(policy, attempts, picks) && |picks| == |families|
    ensures forall i | 0 <= i < |picks| :: picks[i] < |attempts| && FamilyText(policy, attempts[picks[i]]) in families
  {
    if families == {} {
      picks := [];
    } else {
      var f :| f in families;
      var k: nat :| k < |attempts| && FamilyText(policy, attempts[k]) == f;
      var rest := PickFamilies(policy, attempts, families - {f});
      picks := rest + [k];
    }
  }

  lemma {:induction false} PicksAreFew(policy: Policy, attempts: seq<Attempt>, picks: seq<nat>, families: set<string>)
    requires Different(policy, attempts, picks)
    requires forall i | 0 <= i < |picks| :: FamilyText(policy, attempts[picks[i]]) in families
    ensures |picks| <= |families|
  {
    if picks != [] {
      var n := |picks| - 1;
      PicksAreFew(policy, attempts, picks[..n], families - {FamilyText(policy, attempts[picks[n]])});
    }
  }
}
