/**
 * `log_score` of the two search-log parsers: None scores 0; any other value
 * is clamped into [min_bound, max_bound] and scored by where its logarithm
 * lies between those of the bounds (1 at the lower bound, 0 at the upper).
 * The logarithm is a parameter `ln`; floating-point rounding is not modelled.
 */
module Scoring {
  import opened RunProps

  /** `value < min_bound` raises it to the lower bound, then `value > max_bound`
      lowers it to the upper bound (the search parser's two `if`s). */
  function Clamp(x: real, lo: real, hi: real): (r: real)
    ensures lo <= hi ==> lo <= r <= hi
    ensures lo <= x <= hi ==> r == x
    ensures x <= lo && lo <= hi ==> r == lo
    ensures x >= hi ==> r == hi
    ensures hi < lo ==> r == hi
  {
    var raised := if x < lo then lo else x;
    if raised > hi then hi else raised
  }

  function Max(a: real, b: real): real {
    if a >= b then a else b
  }

  function Min(a: real, b: real): real {
    if a <= b then a else b
  }

  /** The single-search parser clamps with `min(max(value, min_bound), max_bound)`;
      that is the same clamp, also when the bounds are crossed. */
  lemma ClampIsMinOfMax(x: real, lo: real, hi: real)
    ensures Clamp(x, lo, hi) == Min(Max(x, lo), hi)
  {
  }

  /** A logarithm: strictly increasing on the positive reals. */
  ghost predicate Increasing(ln: real -> real) {
    forall x, y :: 0.0 < x < y ==> ln(x) < ln(y)
  }

  /** What `log_score` needs to compute a value: positive bounds (the
      logarithm is taken of them) with different logarithms (their difference
      is divided by). */
  predicate ScoreBounds(lo: real, hi: real, ln: real -> real) {
    0.0 < lo && 0.0 < hi && ln(lo) != ln(hi)
  }

  /** `raw_score / best_raw_score` for the clamped value. */
  function Ratio(x: real, lo: real, hi: real, ln: real -> real): real
    requires ScoreBounds(lo, hi, ln)
  {
    var c := Clamp(x, lo, hi);
    (ln(c) - ln(hi)) / (ln(lo) - ln(hi))
  }

  /** A value at or below the lower bound scores like the lower bound: 1. */
  lemma RatioAtMostLower(x: real, lo: real, hi: real, ln: real -> real)
    requires ScoreBounds(lo, hi, ln)
    ensures lo <= hi && x <= lo ==> Ratio(x, lo, hi, ln) == 1.0
  {
    var d := ln(lo) - ln(hi);
    assert d / d == 1.0;
  }

  /** A value at or above the upper bound scores like the upper bound: 0. */
  lemma RatioAtLeastUpper(x: real, lo: real, hi: real, ln: real -> real)
    requires ScoreBounds(lo, hi, ln)
    ensures x >= hi ==> Ratio(x, lo, hi, ln) == 0.0
  {
  }

  /** `n / d` lies in [0, 1] when `d <= n <= 0` and `d < 0`. */
  lemma QuotientInUnit(n: real, d: real)
    requires d < 0.0 && d <= n <= 0.0
    ensures 0.0 <= n / d <= 1.0
  {
    var q := n / d;
    assert q * d == n;
    NegativeFactor(q, d);
    NegativeFactor(q - 1.0, d);
  }

  /** A product with a negative factor `d` that is at least 0 has a
      non-positive other factor. */
  lemma NegativeFactor(a: real, d: real)
    requires d < 0.0
    ensures a * d >= 0.0 ==> a <= 0.0
    ensures a * d <= 0.0 ==> a >= 0.0
  {
  }

  /** With bounds in order, every score lies between 0 and 1. */
  lemma RatioInUnit(x: real, lo: real, hi: real, ln: real -> real)
    requires ScoreBounds(lo, hi, ln) && lo <= hi && Increasing(ln)
    ensures 0.0 <= Ratio(x, lo, hi, ln) <= 1.0
  {
    var c := Clamp(x, lo, hi);
    assert ln(lo) <= ln(c) <= ln(hi) by {
      if lo < c { assert ln(lo) < ln(c); }
      if c < hi { assert ln(c) < ln(hi); }
    }
    assert ln(lo) < ln(hi) by {
      assert lo < hi;
    }
    QuotientInUnit(ln(c) - ln(hi), ln(lo) - ln(hi));
  }

  /** A larger value never scores better. */
  lemma RatioAntitone(x: real, y: real, lo: real, hi: real, ln: real -> real)
    requires ScoreBounds(lo, hi, ln) && lo <= hi && Increasing(ln)
    requires x <= y
    ensures Ratio(y, lo, hi, ln) <= Ratio(x, lo, hi, ln)
  {
    var cx := Clamp(x, lo, hi);
    var cy := Clamp(y, lo, hi);
    var d := ln(lo) - ln(hi);
    assert d < 0.0 by {
      assert lo < hi;
    }
    assert ln(cx) <= ln(cy) by {
      if cx < cy { assert ln(cx) < ln(cy); }
    }
    var qx := (ln(cx) - ln(hi)) / d;
    var qy := (ln(cy) - ln(hi)) / d;
    assert qx * d == ln(cx) - ln(hi);
    assert qy * d == ln(cy) - ln(hi);
    assert (qy - qx) * d >= 0.0;
    NegativeFactor(qy - qx, d);
  }

  /** The logarithm of a positive bound differs from that of another one. */
  lemma BoundsDiffer(lo: real, hi: real, ln: real -> real)
    requires Increasing(ln) && 0.0 < lo && 0.0 < hi && lo != hi
    ensures ScoreBounds(lo, hi, ln)
  {
    if lo < hi {
      assert ln(lo) < ln(hi);
    } else {
      assert ln(hi) < ln(lo);
    }
  }

  /** What `log_score` can score: None or a number. */
  predicate Scorable(v: Value) {
    v == Null || v.Num?
  }

  /** The single-search parser's `log_score`: 0 for None, otherwise the ratio. */
  function LogScore(v: Value, lo: real, hi: real, ln: real -> real): (r: Number)
    requires Scorable(v) && ScoreBounds(lo, hi, ln)
    ensures v == Null ==> r == Int(0)
    ensures v.Num? && lo <= hi && v.n.Real() <= lo ==> r == Float(1.0)
    ensures v.Num? && v.n.Real() >= hi ==> r == Float(0.0)
  {
    if v == Null then Int(0)
    else
      RatioAtMostLower(v.n.Real(), lo, hi, ln);
      RatioAtLeastUpper(v.n.Real(), lo, hi, ln);
      Float(Ratio(v.n.Real(), lo, hi, ln))
  }

  /** The search parser's `log_score` with a minimum score: the ratio mapped
      onto [min_score, 1] and given in percent (before rounding). */
  function PercentScore(v: Value, lo: real, hi: real, minScore: real, ln: real -> real): (r: Number)
    requires Scorable(v) && ScoreBounds(lo, hi, ln)
    ensures v == Null ==> r == Int(0)
    ensures v.Num? && lo <= hi && v.n.Real() <= lo ==> r == Float(100.0)
    ensures v.Num? && v.n.Real() >= hi ==> r == Float(100.0 * minScore)
  {
    if v == Null then Int(0)
    else
      var ratio := LogScore(v, lo, hi, ln).f;
      assert ratio == 1.0 ==> (1.0 - minScore) * ratio == 1.0 - minScore;
      assert ratio == 0.0 ==> (1.0 - minScore) * ratio == 0.0;
      Float(100.0 * (minScore + (1.0 - minScore) * ratio))
  }

  /** Every percent score with minimum score 0 lies between 0 and 100. */
  lemma PercentScoreInRange(v: Value, lo: real, hi: real, ln: real -> real)
    requires Scorable(v) && ScoreBounds(lo, hi, ln) && lo <= hi && Increasing(ln)
    ensures 0.0 <= PercentScore(v, lo, hi, 0.0, ln).Real() <= 100.0
  {
    if v.Num? {
      RatioInUnit(v.n.Real(), lo, hi, ln);
    }
  }
}
