/** Points, sizes and rectangles (`CGPoint`, `CGSize`, `CGRect`) with real
    coordinates, and the distance comparisons that the gesture code makes with
    `hypot`. */
module Geometry {

  datatype Point = Point(x: real, y: real)

  datatype Size = Size(width: real, height: real)

  datatype Rect = Rect(origin: Point, size: Size)

  /** The square of the Euclidean distance between two points. */
  function SquaredDistance(a: Point, b: Point): (d: real)
    ensures 0.0 <= d
    ensures a == b ==> d == 0.0
  {
    var dx, dy := b.x - a.x, b.y - a.y;
    SquarePositive(dx);
    SquarePositive(dy);
    dx * dx + dy * dy
  }

  lemma SquarePositive(v: real)
    ensures 0.0 <= v * v
    ensures v != 0.0 ==> 0.0 < v * v
  {
    if v < 0.0 {
      assert v * v == (-v) * (-v);
    }
  }

  lemma ProductPositive(u: real, v: real)
    requires 0.0 <= u && 0.0 <= v
    ensures 0.0 <= u * v
    ensures 0.0 < u && 0.0 < v ==> 0.0 < u * v
  {
  }

  /** `hypot(b.x - a.x, b.y - a.y) > t`, without the square root. */
  predicate FartherThan(a: Point, b: Point, t: real) {
    t < 0.0 || SquaredDistance(a, b) > t * t
  }

  /** `hypot(b.x - a.x, b.y - a.y) <= t`, without the square root. */
  predicate WithinDistance(a: Point, b: Point, t: real) {
    0.0 <= t && SquaredDistance(a, b) <= t * t
  }

  /** The two comparisons are exact: for the Euclidean distance `h` (the
      non-negative root of the squared distance) they agree with comparing
      `h` itself against the threshold. */
  lemma DistanceComparisonsExact(a: Point, b: Point, t: real, h: real)
    requires 0.0 <= h && h * h == SquaredDistance(a, b)
    ensures FartherThan(a, b, t) <==> h > t
    ensures WithinDistance(a, b, t) <==> h <= t
  {
    if 0.0 <= t {
      if h > t {
        assert h * h - t * t == (h - t) * (h + t);
        ProductPositive(h - t, h + t);
      } else {
        assert t * t - h * h == (t - h) * (t + h);
        ProductPositive(t - h, t + h);
      }
    }
  }

  /** Exactly one of the two comparisons holds. */
  lemma FartherThanIsNotWithin(a: Point, b: Point, t: real)
    ensures FartherThan(a, b, t) <==> !WithinDistance(a, b, t)
  {
  }

  /** The distance is symmetric. */
  lemma SquaredDistanceSymmetric(a: Point, b: Point)
    ensures SquaredDistance(a, b) == SquaredDistance(b, a)
  {
  }
}
