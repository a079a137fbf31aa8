/** `clamped(_:)` on `Comparable`, for integers: `min(max(x, lower), upper)`
    over a closed range (Swift refuses to build a range whose lower bound
    exceeds its upper one). */
module Clamp {

  function Clamped(x: int, lower: int, upper: int): (r: int)
    requires lower <= upper
    ensures lower <= r <= upper
    ensures lower <= x <= upper ==> r == x
    ensures x < lower ==> r == lower
    ensures upper < x ==> r == upper
  {
    var atLeast := if x < lower then lower else x;
    if atLeast < upper then atLeast else upper
  }

  /** Clamping is idempotent. */
  lemma ClampedIdempotent(x: int, lower: int, upper: int)
    requires lower <= upper
    ensures Clamped(Clamped(x, lower, upper), lower, upper) == Clamped(x, lower, upper)
  {
  }

  /** Clamping preserves order. */
  lemma ClampedMonotone(x: int, y: int, lower: int, upper: int)
    requires lower <= upper && x <= y
    ensures Clamped(x, lower, upper) <= Clamped(y, lower, upper)
  {
  }

  /** The clamped value is the point of the range nearest to `x`. */
  lemma ClampedIsNearest(x: int, lower: int, upper: int, y: int)
    requires lower <= upper && lower <= y <= upper
    ensures Dist(x, Clamped(x, lower, upper)) <= Dist(x, y)
  {
  }

  function Dist(a: int, b: int): nat {
    if a < b then b - a else a - b
  }
}
