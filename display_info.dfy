/** `DisplayInfo`: a screen's size in points and its scale factor, with
    conversions between points and pixels. Integer conversions round half
    away from zero; sizes are floored to whole points. */
module DisplayInfo {
  import opened Geometry
  import opened Numerics

  /** Bytes per pixel (red, green, blue, alpha); the instance and the type
      report the same number. */
  const Channels: int := 4

  datatype DisplayInfo = DisplayInfo(size: Size, width: int, height: int, scale: PositiveReal)

  /** `init(size:scale:)`. */
  function Make(size: Size, scale: PositiveReal): (d: DisplayInfo)
    ensures d.size == size && d.scale == scale
    ensures d.width as real <= size.width < d.width as real + 1.0
    ensures d.height as real <= size.height < d.height as real + 1.0
  {
    DisplayInfo(size, Floor(size.width), Floor(size.height), scale)
  }

  /** `init(bounds:scale:)`: the size of the bounds. */
  function FromBounds(bounds: Rect, scale: PositiveReal): (d: DisplayInfo)
    ensures d == Make(bounds.size, scale)
  {
    Make(bounds.size, scale)
  }

  /** `init(width:height:scale:)` with floating-point dimensions. */
  function FromDimensions(width: real, height: real, scale: PositiveReal): (d: DisplayInfo)
    ensures d == Make(Size(width, height), scale)
  {
    Make(Size(width, height), scale)
  }

  /** `init(width:height:scale:)` with integer dimensions, which are kept. */
  function FromIntDimensions(width: int, height: int, scale: PositiveReal): (d: DisplayInfo)
    ensures d.width == width && d.height == height
    ensures d.size == Size(width as real, height as real)
  {
    Make(Size(width as real, height as real), scale)
  }

  /** `scale(_: Int)`: points to pixels, rounded. */
  function Scale(d: DisplayInfo, value: int): (r: int)
    ensures value as real * d.scale - 0.5 <= r as real <= value as real * d.scale + 0.5
    ensures 0.0 <= value as real * d.scale ==> value as real * d.scale - 0.5 < r as real
    ensures value as real * d.scale < 0.0 ==> r as real < value as real * d.scale + 0.5
  {
    Round(value as real * d.scale)
  }

  /** `scale(_: CGFloat)`. */
  function ScaleReal(d: DisplayInfo, value: real): (r: real)
    ensures r / d.scale == value
  {
    value * d.scale
  }

  /** `scale(_: Int, scaling:)`: only when `scaling`. */
  function ScaleIf(d: DisplayInfo, value: int, scaling: bool): (r: int)
    ensures scaling ==> r == Scale(d, value)
    ensures !scaling ==> r == value
  {
    if scaling then Scale(d, value) else value
  }

  /** `scale(_: CGFloat, scaling:)`. */
  function ScaleRealIf(d: DisplayInfo, value: real, scaling: bool): (r: real)
    ensures scaling ==> r == ScaleReal(d, value)
    ensures !scaling ==> r == value
  {
    if scaling then ScaleReal(d, value) else value
  }

  /** `unscale(_: Int)`: pixels to points, rounded. */
  function Unscale(d: DisplayInfo, value: int): (r: int)
    ensures value as real / d.scale - 0.5 <= r as real <= value as real / d.scale + 0.5
    ensures 0.0 <= value as real / d.scale ==> value as real / d.scale - 0.5 < r as real
    ensures value as real / d.scale < 0.0 ==> r as real < value as real / d.scale + 0.5
  {
    Round(value as real / d.scale)
  }

  /** `unscale(_: CGFloat)`. */
  function UnscaleReal(d: DisplayInfo, value: real): (r: real)
    ensures r * d.scale == value
  {
    value / d.scale
  }

  /** `unscale(_: Int, scaling:)`. */
  function UnscaleIf(d: DisplayInfo, value: int, scaling: bool): (r: int)
    ensures scaling ==> r == Unscale(d, value)
    ensures !scaling ==> r == value
  {
    if scaling then Unscale(d, value) else value
  }

  /** `unscale(_: CGFloat, scaling:)`. */
  function UnscaleRealIf(d: DisplayInfo, value: real, scaling: bool): (r: real)
    ensures scaling ==> r == UnscaleReal(d, value)
    ensures !scaling ==> r == value
  {
    if scaling then UnscaleReal(d, value) else value
  }

  /** `scaler(_:scaled:scaling:)`: `value` is in pixels when `scaled` and in
      points otherwise; the result is the value in the units the caller works
      in (pixels when `scaling`, points otherwise) and the value in points. */
  function Scaler(d: DisplayInfo, value: int, scaled: bool, scaling: bool): (r: (int, int))
    ensures r.1 == (if scaled then Unscale(d, value) else value)
    ensures scaling ==> r.0 == (if scaled then value else Scale(d, value))
    ensures !scaling ==> r.0 == r.1
  {
    if scaled then
      if scaling then (value, Unscale(d, value))
      else
        var unscaledValue := Unscale(d, value);
        (unscaledValue, unscaledValue)
    else if scaling then (Scale(d, value), value)
    else (value, value)
  }

  /** The `inout` `scaler`: the two components of the tuple, assigned to the
      two arguments. */
  method ScalerInOut(d: DisplayInfo, value: int, scaled: bool, scaling: bool)
    returns (scaledValue: int, unscaledValue: int)
    ensures (scaledValue, unscaledValue) == Scaler(d, value, scaled, scaling)
  {
    var t := Scaler(d, value, scaled, scaling);
    scaledValue, unscaledValue := t.0, t.1;
  }

  // ---------------------------------------------------------------------------
  // Properties

  /** A whole-number scale (1, 2 or 3 on real devices) converts points to
      pixels exactly, and converting back gives the points again. */
  lemma ScaleRoundTrip(d: DisplayInfo, value: int, k: nat)
    requires d.scale == k as real
    ensures Scale(d, value) == value * k
    ensures Unscale(d, Scale(d, value)) == value
  {
    RoundIntegral(value * k);
    assert (value * k) as real / d.scale == value as real;
    RoundIntegral(value);
  }

  /** Converting points to pixels preserves order. */
  lemma ScaleMonotone(d: DisplayInfo, a: int, b: int)
    requires a <= b
    ensures Scale(d, a) <= Scale(d, b)
  {
    RoundProductMonotone(a, b, d.scale);
    assert Round(a as real * d.scale) <= Round(b as real * d.scale);
    assert Scale(d, a) == Round(a as real * d.scale);
    assert Scale(d, b) == Round(b as real * d.scale);
  }

  /** So does converting pixels to points. */
  lemma UnscaleMonotone(d: DisplayInfo, a: int, b: int)
    requires a <= b
    ensures Unscale(d, a) <= Unscale(d, b)
  {
    DivideMonotone(a as real, b as real, d.scale);
    RoundMonotone(a as real / d.scale, b as real / d.scale);
  }

  lemma DivideMonotone(x: real, y: real, k: real)
    requires x <= y && 0.0 < k
    ensures x / k <= y / k
  {
    assert y / k - x / k == (y - x) / k;
  }

  lemma RoundProductMonotone(a: int, b: int, k: real)
    requires a <= b && 0.0 < k
    ensures Round(a as real * k) <= Round(b as real * k)
  {
    MultiplyMonotone(a as real, b as real, k);
    RoundMonotone(a as real * k, b as real * k);
  }

  lemma MultiplyMonotone(x: real, y: real, k: real)
    requires x <= y && 0.0 < k
    ensures x * k <= y * k
  {
    assert y * k - x * k == (y - x) * k;
  }

  /** The floating-point conversions are inverse to each other. */
  lemma ScaleRealRoundTrip(d: DisplayInfo, value: real)
    ensures UnscaleReal(d, ScaleReal(d, value)) == value
    ensures ScaleReal(d, UnscaleReal(d, value)) == value
  {
  }
}
