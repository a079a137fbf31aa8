/** `Display`: the same conversions as `DisplayInfo`, as static members over
    the main screen. The screen's scale and size are read from the system at
    start-up, so here they are parameters. */
module Display {
  import opened Geometry
  import opened Numerics
  import DisplayInfo

  /** Bytes per pixel. */
  const Channels: int := 4

  /** `width`: the floor of the screen width. */
  function Width(size: Size): (w: int)
    ensures w as real <= size.width < w as real + 1.0
  {
    Floor(size.width)
  }

  /** `height`: the floor of the screen height. */
  function Height(size: Size): (h: int)
    ensures h as real <= size.height < h as real + 1.0
  {
    Floor(size.height)
  }

  /** `scale(_: Int)`: points to pixels, rounded. */
  function Scale(scale: PositiveReal, value: int): (r: int)
    ensures value as real * scale - 0.5 <= r as real <= value as real * scale + 0.5
    ensures 0.0 <= value as real * scale ==> value as real * scale - 0.5 < r as real
    ensures value as real * scale < 0.0 ==> r as real < value as real * scale + 0.5
  {
    Round(value as real * scale)
  }

  /** `unscale(_: Int)`: pixels to points, rounded. */
  function Unscale(scale: PositiveReal, value: int): (r: int)
    ensures value as real / scale - 0.5 <= r as real <= value as real / scale + 0.5
    ensures 0.0 <= value as real / scale ==> value as real / scale - 0.5 < r as real
    ensures value as real / scale < 0.0 ==> r as real < value as real / scale + 0.5
  {
    Round(value as real / scale)
  }

  /** `scale(_:scaling:)`. */
  function ScaleIf(scale: PositiveReal, value: int, scaling: bool): (r: int)
    ensures scaling ==> r == Scale(scale, value)
    ensures !scaling ==> r == value
  {
    if scaling then Scale(scale, value) else value
  }

  /** `unscale(_:scaling:)`. */
  function UnscaleIf(scale: PositiveReal, value: int, scaling: bool): (r: int)
    ensures scaling ==> r == Unscale(scale, value)
    ensures !scaling ==> r == value
  {
    if scaling then Unscale(scale, value) else value
  }

  /** `scaler(_:scaled:scaling:)`: the value in the caller's units and the
      value in points. */
  function Scaler(scale: PositiveReal, value: int, scaled: bool, scaling: bool): (r: (int, int))
    ensures r.1 == (if scaled then Unscale(scale, value) else value)
    ensures scaling ==> r.0 == (if scaled then value else Scale(scale, value))
    ensures !scaling ==> r.0 == r.1
  {
    if scaled then
      if scaling then (value, Unscale(scale, value))
      else
        var unscaledValue := Unscale(scale, value);
        (unscaledValue, unscaledValue)
    else if scaling then (Scale(scale, value), value)
    else (value, value)
  }

  /** The `inout` `scaler`. */
  method ScalerInOut(scale: PositiveReal, value: int, scaled: bool, scaling: bool)
    returns (scaledValue: int, unscaledValue: int)
    ensures (scaledValue, unscaledValue) == Scaler(scale, value, scaled, scaling)
  {
    var t := Scaler(scale, value, scaled, scaling);
    scaledValue, unscaledValue := t.0, t.1;
  }

  // ---------------------------------------------------------------------------
  // Properties

  /** `Display` over a screen is `DisplayInfo` built from the same size and
      scale, member for member. */
  lemma AgreesWithDisplayInfo(size: Size, scale: PositiveReal, value: int, scaled: bool, scaling: bool)
    ensures var d := DisplayInfo.Make(size, scale);
            Width(size) == d.width && Height(size) == d.height
            && Scale(scale, value) == DisplayInfo.Scale(d, value)
            && Unscale(scale, value) == DisplayInfo.Unscale(d, value)
            && ScaleIf(scale, value, scaling) == DisplayInfo.ScaleIf(d, value, scaling)
            && UnscaleIf(scale, value, scaling) == DisplayInfo.UnscaleIf(d, value, scaling)
            && Scaler(scale, value, scaled, scaling) == DisplayInfo.Scaler(d, value, scaled, scaling)
  {
  }

  /** The second component of `scaler` is the value in points whatever the
      caller's mode, so a pixel value and the point value it came from (at
      a whole-number scale) give the same second component. */
  lemma ScalerPointsAgree(scale: PositiveReal, value: int, k: nat, scaling: bool)
    requires scale == k as real
    ensures Scaler(scale, Scale(scale, value), true, scaling).1 == Scaler(scale, value, false, scaling).1
  {
    RoundIntegral(value * k);
    assert Scale(scale, value) == value * k;
    assert (value * k) as real / scale == value as real;
    RoundIntegral(value);
  }
}
