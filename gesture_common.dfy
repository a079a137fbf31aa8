/** What both versions of the composite gesture share: the callbacks they
    fire, the shape of the long-press event, the orientation snapshot they
    consult, and point normalisation. */
module GestureCommon {
  import opened Options
  import opened Geometry
  import opened Orientation

  /** One callback invocation, in the order fired. */
  datatype Event =
    | Drag(point: Point)
    | DragEnd(point: Point)
    | Tap(point: Point)
    | LongTap(point: Point)
    | SwipeLeft
    | SwipeRight

  /** The value a `LongPressGesture.sequenced(before: DragGesture)` ends with:
      `.first(pressed)` while only the press is known, `.second(pressed, drag)`
      once the drag has started; `drag` holds its location if it has one. */
  datatype LongPressValue =
    | First(pressed: bool)
    | Second(pressed: bool, drag: Option<Point>)

  /** What an `OrientationObserver` says at the moment a gesture ends. */
  datatype OrientationSnapshot = OrientationSnapshot(current: DeviceOrientation, supported: seq<DeviceOrientation>)

  /** The upside-down quirk: the device is upside-down although the
      application does not support upside-down. No observer: false. */
  predicate UpsideDownButNotSupported(orientation: Option<OrientationSnapshot>) {
    orientation.Some? && orientation.value.current == PortraitUpsideDown
    && PortraitUpsideDown !in orientation.value.supported
  }

  /** `normalizePoint?(p) ?? p`. */
  function Normalize(normalizePoint: Option<Point -> Point>, p: Point): (r: Point)
    ensures normalizePoint.None? ==> r == p
    ensures normalizePoint.Some? ==> r == normalizePoint.value(p)
  {
    match normalizePoint
    case None => p
    case Some(f) => f(p)
  }

  /** The seconds between two millisecond timestamps (`timeIntervalSince`). */
  function Seconds(fromMs: int, toMs: int): (s: real)
    ensures s * 1000.0 == (toMs - fromMs) as real
  {
    (toMs - fromMs) as real / 1000.0
  }

  /** The events that are drags. */
  predicate AllDrags(events: seq<Event>) {
    forall i :: 0 <= i < |events| ==> events[i].Drag?
  }
}
