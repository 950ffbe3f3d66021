/**
 * The control views' value normalisation: a value in a range is mapped to
 * its fraction of the way from the lower to the upper bound, and back.
 */
module NormalizeControl {
  import opened CoreTypes

  /** normalizeValue(_:in:). A range with equal bounds would divide by zero. */
  function NormalizeValue(value: real, range: ClosedRange): (t: real)
    requires range.lower != range.upper
    ensures t * (range.upper - range.lower) == value - range.lower
  {
    var span := range.upper - range.lower;
    assert ((value - range.lower) / span) * span == value - range.lower;
    (value - range.lower) / span
  }

  /** deNormalizeValue(_:in:) */
  function DeNormalizeValue(normalizedValue: real, range: ClosedRange): (v: real)
    ensures normalizedValue == 0.0 ==> v == range.lower
    ensures normalizedValue == 1.0 ==> v == range.upper
  {
    range.lower + normalizedValue * (range.upper - range.lower)
  }

  /** The two are inverse to each other on a range of positive width. */
  lemma RoundTrip(value: real, normalizedValue: real, range: ClosedRange)
    requires range.lower != range.upper
    ensures DeNormalizeValue(NormalizeValue(value, range), range) == value
    ensures NormalizeValue(DeNormalizeValue(normalizedValue, range), range) == normalizedValue
  {
    var span := range.upper - range.lower;
    var t := NormalizeValue(DeNormalizeValue(normalizedValue, range), range);
    CancelFactor(t, normalizedValue, span);
  }

  /** A fraction in [0, 1] of a well-formed range lies in the range. */
  lemma DeNormalizeInRange(normalizedValue: real, range: ClosedRange)
    requires 0.0 <= normalizedValue <= 1.0 && range.Valid()
    ensures range.Contains(DeNormalizeValue(normalizedValue, range))
  {
    var span := range.upper - range.lower;
    assert normalizedValue * span >= 0.0;
    assert span - normalizedValue * span == (1.0 - normalizedValue) * span;
    assert (1.0 - normalizedValue) * span >= 0.0;
  }

  /** The lower bound normalises to 0 and the upper bound to 1. */
  lemma Endpoints(range: ClosedRange)
    requires range.lower != range.upper
    ensures NormalizeValue(range.lower, range) == 0.0
    ensures NormalizeValue(range.upper, range) == 1.0
  {
    var span := range.upper - range.lower;
    CancelFactor(NormalizeValue(range.upper, range), 1.0, span);
  }

  /** On a range with lower < upper, a value lies in the range exactly when
      its normalised value lies in [0, 1], and normalisation keeps order. */
  lemma {:induction false} UnitInterval(value: real, other: real, range: ClosedRange)
    requires range.lower < range.upper
    ensures range.Contains(value) <==> 0.0 <= NormalizeValue(value, range) <= 1.0
    ensures value <= other ==> NormalizeValue(value, range) <= NormalizeValue(other, range)
  {
    var span := range.upper - range.lower;
    var t := NormalizeValue(value, range);
    var u := NormalizeValue(other, range);
    assert t * span == value - range.lower && u * span == other - range.lower;
    assert 0.0 * span == 0.0 && 1.0 * span == span;
    ScaleOrder(0.0, t, span);
    ScaleOrder(t, 1.0, span);
    ScaleOrder(t, u, span);
  }

  /** A nonzero factor cancels. */
  lemma CancelFactor(a: real, b: real, k: real)
    requires k != 0.0 && a * k == b * k
    ensures a == b
  {
    assert a == (a * k) / k;
    assert b == (b * k) / k;
  }

  /** Multiplying by a positive factor keeps and reflects order. */
  lemma ScaleOrder(a: real, b: real, k: real)
    requires k > 0.0
    ensures a <= b <==> a * k <= b * k
  {
    assert b * k - a * k == (b - a) * k;
    if a > b {
      assert (a - b) * k > 0.0;
    }
  }
}
