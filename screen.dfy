/** `Screen`: width and height as integers (truncated toward zero), the scale
    factor, and point/pixel conversions. Its stored properties are constants,
    so it is a value here. */
module Screen {
  import opened Geometry
  import opened Numerics

  /** Bytes per pixel; the instance and the type report the same number. */
  const Channels: int := 4

  datatype Screen = Screen(width: int, height: int, scale: PositiveReal)

  /** `init(size:scale:)`: `Int(...)` truncates each dimension toward zero. */
  function Make(size: Size, scale: PositiveReal): (s: Screen)
    ensures s.scale == scale
    ensures 0.0 <= size.width ==> s.width as real <= size.width < s.width as real + 1.0
    ensures size.width <= 0.0 ==> s.width as real - 1.0 < size.width <= s.width as real
    ensures 0.0 <= size.height ==> s.height as real <= size.height < s.height as real + 1.0
    ensures size.height <= 0.0 ==> s.height as real - 1.0 < size.height <= s.height as real
  {
    Screen(Truncate(size.width), Truncate(size.height), scale)
  }

  /** `size`: the truncated width and height. */
  function SizeOf(s: Screen): (r: Size)
    ensures r.width == s.width as real && r.height == s.height as real
  {
    Size(s.width as real, s.height as real)
  }

  /** `scale(scaling:)`: the stored scale, or 1.0 when not scaling. */
  function ScaleFactor(s: Screen, scaling: bool := true): (f: real)
    ensures scaling ==> f == s.scale
    ensures !scaling ==> f == 1.0
  {
    if scaling then s.scale else 1.0
  }

  /** `scaled(_: Int)`. */
  function Scaled(s: Screen, value: int): (r: int)
    ensures value as real * s.scale - 0.5 <= r as real <= value as real * s.scale + 0.5
    ensures 0.0 <= value as real * s.scale ==> value as real * s.scale - 0.5 < r as real
    ensures value as real * s.scale < 0.0 ==> r as real < value as real * s.scale + 0.5
  {
    Round(value as real * s.scale)
  }

  /** `scaled(_: CGFloat)`. */
  function ScaledReal(s: Screen, value: real): (r: real)
    ensures r / s.scale == value
  {
    value * s.scale
  }

  /** `scaled(_: Int, scaling:)`, written out in full in the source. */
  function ScaledIf(s: Screen, value: int, scaling: bool): (r: int)
    ensures scaling ==> r == Scaled(s, value)
    ensures !scaling ==> r == value
  {
    if scaling then Round(value as real * s.scale) else value
  }

  /** `scaled(_: CGFloat, scaling:)`. */
  function ScaledRealIf(s: Screen, value: real, scaling: bool): (r: real)
    ensures scaling ==> r == ScaledReal(s, value)
    ensures !scaling ==> r == value
  {
    if scaling then value * s.scale else value
  }

  /** `unscaled(_: Int)`. */
  function Unscaled(s: Screen, value: int): (r: int)
    ensures value as real / s.scale - 0.5 <= r as real <= value as real / s.scale + 0.5
    ensures 0.0 <= value as real / s.scale ==> value as real / s.scale - 0.5 < r as real
    ensures value as real / s.scale < 0.0 ==> r as real < value as real / s.scale + 0.5
  {
    Round(value as real / s.scale)
  }

  /** `unscaled(_: CGFloat)`. */
  function UnscaledReal(s: Screen, value: real): (r: real)
    ensures r * s.scale == value
  {
    value / s.scale
  }

  /** `unscaled(_: Int, scaling:)`. */
  function UnscaledIf(s: Screen, value: int, scaling: bool): (r: int)
    ensures scaling ==> r == Unscaled(s, value)
    ensures !scaling ==> r == value
  {
    if scaling then Round(value as real / s.scale) else value
  }

  /** `unscaled(_: CGFloat, scaling:)`. */
  function UnscaledRealIf(s: Screen, value: real, scaling: bool): (r: real)
    ensures scaling ==> r == UnscaledReal(s, value)
    ensures !scaling ==> r == value
  {
    if scaling then value / s.scale else value
  }

  // ---------------------------------------------------------------------------
  // Properties

  /** The flagged conversions, spelled out separately in the source, agree
      with the unflagged ones when scaling and change nothing otherwise. */
  lemma FlaggedConversions(s: Screen, value: int, x: real, scaling: bool)
    ensures ScaledIf(s, value, scaling) == if scaling then Scaled(s, value) else value
    ensures UnscaledIf(s, value, scaling) == if scaling then Unscaled(s, value) else value
    ensures ScaledRealIf(s, x, scaling) == if scaling then ScaledReal(s, x) else x
    ensures UnscaledRealIf(s, x, scaling) == if scaling then UnscaledReal(s, x) else x
  {
  }

  /** Scaling by `scale(scaling:)` is what the flagged floating-point
      conversion does. */
  lemma ScaleFactorIsTheConversion(s: Screen, x: real, scaling: bool)
    ensures ScaledRealIf(s, x, scaling) == x * ScaleFactor(s, scaling)
    ensures UnscaledRealIf(s, x, scaling) == x / ScaleFactor(s, scaling)
  {
  }

  /** A whole-number scale converts exactly and back. */
  lemma ScaledRoundTrip(s: Screen, value: int, k: nat)
    requires s.scale == k as real
    ensures Scaled(s, value) == value * k
    ensures Unscaled(s, Scaled(s, value)) == value
  {
    RoundIntegral(value * k);
    assert (value * k) as real / s.scale == value as real;
    RoundIntegral(value);
  }

  /** For a size with no negative component `Screen` (truncation) and
      `DisplayInfo` (floor) agree on the dimensions ... */
  lemma TruncationIsFloorWhenNonNegative(size: Size, scale: PositiveReal)
    requires 0.0 <= size.width && 0.0 <= size.height
    ensures Make(size, scale).width == Floor(size.width)
    ensures Make(size, scale).height == Floor(size.height)
  {
  }

  /** ... but not for a negative fractional one. */
  lemma TruncationDiffersFromFloor()
    ensures Make(Size(-0.5, 0.0), 1.0).width == 0
    ensures Floor(-0.5) == -1
  {
  }
}
