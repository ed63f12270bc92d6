/** Exact ratios with an integer basis-point projection, and the rates of a signal. */
module EffectivenessRates {
  import opened Wrappers
  import opened Effectiveness

  datatype Rate = Rate(numerator: int, denominator: int, basisPoints: Option<int>)

  datatype RateError =
    | RateCounts | RateInvalid | BasisPointsMismatch
    | InvalidDomain | NegativeCount | IsolatedFinalizedExceeds | IsolatedValidatorExceeds | DenominatorMismatch

  const SCALE := 10000

  /** Round half up in integer arithmetic; the operands are non-negative, so floor division is Dafny's. */
  function BasisPoints(numerator: int, denominator: int): Option<int>
    requires 0 <= numerator <= denominator
  {
    if denominator == 0 then None else Some((numerator * SCALE + denominator / 2) / denominator)
  }

  function FromCounts(numerator: int, denominator: int): Result<Rate, RateError> {
    if numerator < 0 || denominator < 0 || numerator > denominator then Err(RateCounts)
    else ValidateRate(Rate(numerator, denominator, BasisPoints(numerator, denominator)))
  }

  function ValidateRate(rate: Rate): Result<Rate, RateError> {
    if rate.numerator < 0 || rate.denominator < 0 || rate.numerator > rate.denominator then Err(RateInvalid)
    else if rate.basisPoints != BasisPoints(rate.numerator, rate.denominator) then Err(BasisPointsMismatch)
    else Ok(rate)
  }

  /** `bp` is num/den in units of 1/10000, rounded to nearest, with halves up. */
  ghost predicate Nearest(bp: int, num: int, den: int) {
    -den < 2 * (bp * den - SCALE * num) <= den
  }

  /** The projection is the one nearest integer, and it stays between 0 and 10000. */
  lemma BasisPointsAreNearest(num: int, den: int, bp: int)
    requires 0 <= num <= den && den > 0
    ensures Nearest(bp, num, den) <==> BasisPoints(num, den) == Some(bp)
    ensures Nearest(bp, num, den) ==> 0 <= bp <= SCALE
  {
    var x := num * SCALE + den / 2;
    var q := x / den;
    DivisionBounds(x, den);
    assert Nearest(q, num, den);
    if Nearest(bp, num, den) {
      if bp < q { Scaled(bp + 1, q, den); }
      if bp > q { Scaled(q + 1, bp, den); }
      if q < 0 { Scaled(q, -1, den); }
      if q > SCALE { Scaled(SCALE + 1, q, den); }
    }
  }

  lemma DivisionBounds(x: int, den: int)
    requires den > 0
    ensures (x / den) * den <= x < (x / den) * den + den
  {
  }

  lemma Scaled(a: int, b: int, den: int)
    requires a <= b && den > 0
    ensures a * den <= b * den
  {
  }

  lemma FromCountsMeaning(num: int, den: int)
    ensures FromCounts(num, den).Ok? <==> 0 <= num <= den
    ensures FromCounts(num, den).Ok? ==>
      var rate := FromCounts(num, den).value;
      && rate.numerator == num && rate.denominator == den
      && (rate.basisPoints.None? <==> den == 0)
      && (den > 0 ==> Nearest(rate.basisPoints.value, num, den) && 0 <= rate.basisPoints.value <= SCALE)
      && ValidateRate(rate) == Ok(rate)
  {
    if 0 <= num <= den && den > 0 {
      BasisPointsAreNearest(num, den, BasisPoints(num, den).value);
    }
  }

  datatype Projection = Projection(
    key: Key, finalized: int, isolatedFinalized: int, resolved: int, isolatedResolved: int,
    success: Rate, failure: Rate, validatorPass: Rate,
    isolatedSuccess: Rate, isolatedFailure: Rate, isolatedValidatorPass: Rate)

  function ValidateProjection(p: Projection): Result<Projection, RateError> {
    if p.key.domain !in DOMAINS then Err(InvalidDomain)
    else if p.finalized < 0 || p.isolatedFinalized < 0 || p.resolved < 0 || p.isolatedResolved < 0 then Err(NegativeCount)
    else if p.isolatedFinalized > p.finalized then Err(IsolatedFinalizedExceeds)
    else if p.isolatedResolved > p.resolved then Err(IsolatedValidatorExceeds)
    else
      var _ :- ValidateRate(p.success);
      var _ :- ValidateRate(p.failure);
      var _ :- ValidateRate(p.validatorPass);
      var _ :- ValidateRate(p.isolatedSuccess);
      var _ :- ValidateRate(p.isolatedFailure);
      var _ :- ValidateRate(p.isolatedValidatorPass);
      if p.success.denominator != p.finalized || p.failure.denominator != p.finalized
         || p.validatorPass.denominator != p.resolved
         || p.isolatedSuccess.denominator != p.isolatedFinalized
         || p.isolatedFailure.denominator != p.isolatedFinalized
         || p.isolatedValidatorPass.denominator != p.isolatedResolved
      then Err(DenominatorMismatch)
      else Ok(p)
  }

  function RateProjection(s: Signal): Result<Projection, RateError> {
    var finalized := s.success + s.failed + s.unverified;
    var isolatedFinalized := s.isolatedSuccess + s.isolatedFailed + s.isolatedUnverified;
    var success :- FromCounts(s.success, finalized);
    var failure :- FromCounts(s.failed, finalized);
    var validatorPass :- FromCounts(s.passed, s.resolved);
    var isolatedSuccess :- FromCounts(s.isolatedSuccess, isolatedFinalized);
    var isolatedFailure :- FromCounts(s.isolatedFailed, isolatedFinalized);
    var isolatedValidatorPass :- FromCounts(s.isolatedPassed, s.isolatedResolved);
    ValidateProjection(
      Projection(s.key, finalized, isolatedFinalized, s.resolved, s.isolatedResolved,
                 success, failure, validatorPass, isolatedSuccess, isolatedFailure, isolatedValidatorPass))
  }
}
