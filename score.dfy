/**
 * Turning the model's raw prediction into the displayed grammar score
 * (app.py:204-205): `min(max(pred, 0), 5)` clamps it to the closed range
 * [0, 5], and `score / 5 * 100` rescales it to a percentage.
 */
module GrammarScore {

  /** The top of the score scale. */
  const MaxScore: real := 5.0

  /** Python's two-argument `max`: the first argument unless the second is strictly larger. */
  function PyMax(a: real, b: real): (m: real)
    ensures m >= a && m >= b
    ensures m == a || m == b
  {
    if b > a then b else a
  }

  /** Python's two-argument `min`: the first argument unless the second is strictly smaller. */
  function PyMin(a: real, b: real): (m: real)
    ensures m <= a && m <= b
    ensures m == a || m == b
  {
    if b < a then b else a
  }

  /** `min(max(pred, 0), 5)`: the prediction clamped into the score range. */
  function ClampScore(pred: real): (s: real)
    ensures 0.0 <= s <= MaxScore
    ensures 0.0 <= pred <= MaxScore ==> s == pred
    ensures pred < 0.0 ==> s == 0.0
    ensures pred > MaxScore ==> s == MaxScore
  {
    PyMin(PyMax(pred, 0.0), MaxScore)
  }

  /** `(score / 5) * 100`: the score as a share of the full scale. */
  function Percentage(score: real): (p: real)
    ensures p == score * 20.0
    ensures 0.0 <= score <= MaxScore ==> 0.0 <= p <= 100.0
  {
    (score / MaxScore) * 100.0
  }

  /** The distance between two reals. */
  function Dist(a: real, b: real): real
  {
    if a <= b then b - a else a - b
  }

  /** The clamped score is the point of [0, 5] nearest to the prediction. */
  lemma ClampScoreIsNearest(pred: real, s: real)
    requires 0.0 <= s <= MaxScore
    ensures Dist(ClampScore(pred), pred) <= Dist(s, pred)
  {
  }

  /** A higher prediction never shows a lower score. */
  lemma ClampScoreMonotone(p: real, q: real)
    requires p <= q
    ensures ClampScore(p) <= ClampScore(q)
  {
  }

  /** The displayed percentage lies in [0, 100] and never decreases as the prediction grows. */
  lemma PercentageOfPrediction(p: real, q: real)
    requires p <= q
    ensures 0.0 <= Percentage(ClampScore(p)) <= 100.0
    ensures Percentage(ClampScore(p)) <= Percentage(ClampScore(q))
  {
    ClampScoreMonotone(p, q);
  }
}
