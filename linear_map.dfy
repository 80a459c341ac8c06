// The clamped linear interpolation used to size each body's marker from its mass.

module Mapping {

  /**
   * Maps `value` from the input span [minIn, maxIn] onto [minOut, maxOut],
   * clamping at both ends. The `value >= maxIn` test comes first, so an
   * empty input span (minIn == maxIn) never reaches the division.
   */
  function LinearMap(value: real, minIn: real, maxIn: real, minOut: real, maxOut: real): (r: real)
    ensures value >= maxIn ==> r == maxOut
    ensures value < maxIn && value <= minIn ==> r == minOut
    // between the ends, (value, r) lies on the line through (minIn, minOut) and (maxIn, maxOut)
    ensures minIn < value < maxIn ==> (r - minOut) * (maxIn - minIn) == (value - minIn) * (maxOut - minOut)
  {
    if value >= maxIn then
      maxOut
    else if value <= minIn then
      minOut
    else
      var spanIn := maxIn - minIn;
      var spanOut := maxOut - minOut;
      var scale := (value - minIn) / spanIn;
      minOut + scale * spanOut
  }

  lemma FractionInUnit(a: real, b: real)
    requires 0.0 < a < b
    ensures 0.0 < a / b < 1.0
  {
    var q := a / b;
    assert q * b == a;
    if q >= 1.0 {
      ProductMonotone(1.0, q, b);
    }
  }

  lemma ProductBelow(s: real, d: real)
    requires 0.0 < s < 1.0 && 0.0 <= d
    ensures 0.0 <= s * d <= d
  {
  }

  /** An increasing output span bounds the result on both sides, for every input. */
  lemma {:induction false} LinearMapWithinRange(value: real, minIn: real, maxIn: real, minOut: real, maxOut: real)
    requires minOut <= maxOut
    ensures minOut <= LinearMap(value, minIn, maxIn, minOut, maxOut) <= maxOut
  {
    if minIn < value < maxIn {
      var scale := (value - minIn) / (maxIn - minIn);
      FractionInUnit(value - minIn, maxIn - minIn);
      ProductBelow(scale, maxOut - minOut);
    }
  }

  lemma FractionMonotone(a: real, b: real, c: real)
    requires 0.0 <= a <= b && 0.0 < c
    ensures a / c <= b / c
  {
  }

  lemma ProductMonotone(s: real, t: real, d: real)
    requires s <= t && 0.0 <= d
    ensures s * d <= t * d
  {
  }

  /** An increasing output span makes the map non-decreasing in its input. */
  lemma {:induction false} LinearMapMonotone(v1: real, v2: real, minIn: real, maxIn: real, minOut: real, maxOut: real)
    requires minOut <= maxOut
    requires v1 <= v2
    ensures LinearMap(v1, minIn, maxIn, minOut, maxOut) <= LinearMap(v2, minIn, maxIn, minOut, maxOut)
  {
    LinearMapWithinRange(v1, minIn, maxIn, minOut, maxOut);
    LinearMapWithinRange(v2, minIn, maxIn, minOut, maxOut);
    if minIn < v1 && v2 < maxIn {
      var spanIn := maxIn - minIn;
      FractionMonotone(v1 - minIn, v2 - minIn, spanIn);
      ProductMonotone((v1 - minIn) / spanIn, (v2 - minIn) / spanIn, maxOut - minOut);
    }
  }
}
