/**
 The health-check score: passed findings weigh 1, warnings 1/2, errors 0,
 and the weighted share of all findings is rounded to a whole percentage.
 `Math.round` rounds halves up, so the score is the integer s with
 s - 1/2 <= 100 * (P + W/2) / T < s + 1/2, computed exactly on integers as
 ((2P + W) * 100 + T) / (2T). With no findings at all, 0/0 is NaN.
 */
module SeoScore {
  import opened SeoTypes

  datatype ScoreValue = Number(value: int) | NaN

  /** `x` lies within half a unit of the percentage `s`, on the scale `t`: (2s - 1) t <= x < (2s + 1) t. */
  predicate RoundsTo(x: int, t: int, s: int) {
    (2 * s - 1) * t <= x < (2 * s + 1) * t
  }

  lemma RoundHalfUp(x: nat, t: nat)
    requires t > 0
    ensures RoundsTo(x, t, (x + t) / (2 * t))
  {
    var q := (x + t) / (2 * t);
    var r := (x + t) % (2 * t);
    assert x + t == q * (2 * t) + r && 0 <= r < 2 * t;
    assert (2 * q - 1) * t == q * (2 * t) - t;
    assert (2 * q + 1) * t == q * (2 * t) + t;
  }

  /** The rounded percentage of `x` on the scale `t` is unique. */
  lemma RoundsToUnique(x: int, t: int, s: int, s': int)
    requires t > 0 && RoundsTo(x, t, s) && RoundsTo(x, t, s')
    ensures s == s'
  {
    if s < s' {
      assert 2 * s + 1 <= 2 * s' - 1;
      MulMonotone(2 * s + 1, 2 * s' - 1, t);
    } else if s' < s {
      assert 2 * s' + 1 <= 2 * s - 1;
      MulMonotone(2 * s' + 1, 2 * s - 1, t);
    }
  }

  /** A share of at most the whole rounds to at most one hundred. */
  lemma RoundedShareAtMostHundred(x: int, t: int, s: int)
    requires t > 0 && x <= 200 * t && RoundsTo(x, t, s)
    ensures s <= 100
  {
    if s > 100 {
      MulMonotone(201, 2 * s - 1, t);
    }
  }

  lemma MulMonotone(a: int, b: int, t: int)
    requires a <= b && t >= 0
    ensures a * t <= b * t
  {
    assert b * t - a * t == (b - a) * t;
  }

  /** `calculateScore` on the three list sizes. */
  function Score(passed: nat, warnings: nat, errors: nat): (s: ScoreValue)
    ensures s.NaN? <==> passed + warnings + errors == 0
    ensures s.Number? ==> 0 <= s.value <= 100
    ensures s.Number? ==> RoundsTo((2 * passed + warnings) * 100, passed + warnings + errors, s.value)
  {
    var total := passed + warnings + errors;
    if total == 0 then NaN
    else
      var x := (2 * passed + warnings) * 100;
      var s := (x + total) / (2 * total);
      RoundHalfUp(x, total);
      RoundedShareAtMostHundred(x, total, s);
      Number(s)
  }

  /** The score of a set of finding lists. */
  function ScoreOf(r: Results): ScoreValue {
    Score(|r.passed|, |r.warnings|, |r.errors|)
  }

  /** The score is the one percentage that the weighted share rounds to. */
  lemma ScoreIsRoundedShare(passed: nat, warnings: nat, errors: nat, s: int)
    requires passed + warnings + errors > 0
    requires RoundsTo((2 * passed + warnings) * 100, passed + warnings + errors, s)
    ensures Score(passed, warnings, errors) == Number(s)
  {
    var r := Score(passed, warnings, errors);
    RoundsToUnique((2 * passed + warnings) * 100, passed + warnings + errors, r.value, s);
  }

  /** Only passed findings: a perfect score. */
  lemma AllPassedScoresHundred(passed: nat)
    requires passed > 0
    ensures Score(passed, 0, 0) == Number(100)
  {
    ScoreIsRoundedShare(passed, 0, 0, 100);
  }

  /** No passed finding and no warning: a score of zero. */
  lemma OnlyErrorsScoreZero(errors: nat)
    requires errors > 0
    ensures Score(0, 0, errors) == Number(0)
  {
    ScoreIsRoundedShare(0, 0, errors, 0);
  }

  /** As many passed findings as errors and no warning: a score of fifty. */
  lemma EvenSplitScoresFifty(n: nat)
    requires n > 0
    ensures Score(n, 0, n) == Number(50)
  {
    ScoreIsRoundedShare(n, 0, n, 50);
  }

  /** Only warnings: a score of fifty. */
  lemma OnlyWarningsScoreFifty(warnings: nat)
    requires warnings > 0
    ensures Score(0, warnings, 0) == Number(50)
  {
    ScoreIsRoundedShare(0, warnings, 0, 50);
  }

  /** Multiplying every list size by the same factor leaves the score unchanged. */
  lemma ScoreScales(passed: nat, warnings: nat, errors: nat, k: nat)
    requires k > 0
    ensures Score(k * passed, k * warnings, k * errors) == Score(passed, warnings, errors)
  {
    var total := passed + warnings + errors;
    var x := (2 * passed + warnings) * 100;
    ScaledSums(passed, warnings, errors, k);
    if total > 0 {
      var s := Score(passed, warnings, errors).value;
      RoundsToScaled(x, total, s, k);
      ScoreIsRoundedShare(k * passed, k * warnings, k * errors, s);
    }
  }

  /** The weighted sum and the total both scale by the factor. */
  lemma ScaledSums(passed: nat, warnings: nat, errors: nat, k: nat)
    ensures (2 * (k * passed) + k * warnings) * 100 == k * ((2 * passed + warnings) * 100)
    ensures k * passed + k * warnings + k * errors == k * (passed + warnings + errors)
  {
  }

  /** Rounding is unchanged when the share and the scale are multiplied by the same factor. */
  lemma RoundsToScaled(x: int, t: int, s: int, k: int)
    requires k > 0 && RoundsTo(x, t, s)
    ensures RoundsTo(k * x, k * t, s)
  {
    assert (2 * s - 1) * (k * t) == k * ((2 * s - 1) * t);
    assert (2 * s + 1) * (k * t) == k * ((2 * s + 1) * t);
    MulMonotone((2 * s - 1) * t, x, k);
    MulStrict(x, (2 * s + 1) * t, k);
  }

  /** Filing every finding a second time leaves the score unchanged. */
  lemma RepeatedFindingsKeepScore(r: Results)
    ensures ScoreOf(r.Append(r)) == ScoreOf(r)
  {
    ScoreScales(|r.passed|, |r.warnings|, |r.errors|, 2);
  }

  lemma MulStrict(a: int, b: int, k: int)
    requires a < b && k > 0
    ensures k * a < k * b
  {
    assert k * b - k * a == k * (b - a);
  }
}
