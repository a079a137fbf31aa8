/** The conversions from floating point to integer that the scaling code
    relies on, stated over the reals. */
module Numerics {

  /** A display scale factor (pixels per point): always positive. */
  type PositiveReal = r: real | r > 0.0 witness 1.0

  /** `Int(floor(x))`: the largest integer not above `x`. */
  function Floor(x: real): (r: int)
    ensures r as real <= x < r as real + 1.0
  {
    x.Floor
  }

  /** `Int(x)`: Swift's conversion truncates toward zero. */
  function Truncate(x: real): (r: int)
    ensures 0.0 <= x ==> r as real <= x < r as real + 1.0
    ensures x < 0.0 ==> r as real - 1.0 < x <= r as real
  {
    if 0.0 <= x then x.Floor else -((-x).Floor)
  }

  /** `round(x)`: the nearest integer, ties rounded away from zero
      (the default rounding rule of Swift's `round`). */
  function Round(x: real): (r: int)
    ensures x - 0.5 <= r as real <= x + 0.5
    ensures 0.0 <= x ==> x - 0.5 < r as real
    ensures x < 0.0 ==> r as real < x + 0.5
  {
    if 0.0 <= x then (x + 0.5).Floor else -((0.5 - x).Floor)
  }

  /** An integral value is not moved by rounding. */
  lemma RoundIntegral(n: int)
    ensures Round(n as real) == n
  {
  }

  /** Rounding treats positive and negative values alike. */
  lemma RoundOdd(x: real)
    ensures Round(-x) == -Round(x)
  {
  }

  /** Rounding is monotone. */
  lemma RoundMonotone(x: real, y: real)
    requires x <= y
    ensures Round(x) <= Round(y)
  {
    if 0.0 <= x {
      assert (x + 0.5).Floor <= (y + 0.5).Floor;
    } else if y < 0.0 {
      assert (0.5 - y).Floor <= (0.5 - x).Floor;
    } else {
      assert Round(x) <= 0;
    }
  }
}
