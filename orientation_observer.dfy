/** The orientation observer: the current and previous orientation kept up to
    date from change notifications, the orientation-aware mapping of a screen
    point into a view, and the list of orientations the application declares
    it supports. The notification plumbing is outside the model: a change
    notification is a call of `OrientationDidChange` with the readings that
    `Orientation.current` would take. */
module OrientationObserver {
  import opened Options
  import opened Geometry
  import opened Orientation

  /** `normalizePoint(screenPoint:view:)`: the point in the coordinates of
      `view`, taking the rotation of the screen into account. */
  function NormalizePoint(current: DeviceOrientation, previous: DeviceOrientation, ipad: bool,
                          screenPoint: Point, view: Rect): Point
  {
    var sx, sy := screenPoint.x, screenPoint.y;
    var ox, oy := view.origin.x, view.origin.y;
    var w, h := view.size.width, view.size.height;
    match current
    case Portrait => Point(sx - ox, sy - oy)
    case PortraitUpsideDown =>
      if ipad then Point(w - 1.0 - (sx - ox), h - 1.0 - (sy - oy))
      else if IsLandscape(previous) then Point(sy - ox, h - 1.0 - (sx - oy))
      else Point(sx - ox, sy - oy)
    case LandscapeRight => Point(sy - ox, h - 1.0 - (sx - oy))
    case LandscapeLeft => Point(w - 1.0 - (sy - ox), sx - oy)
    case _ => Point(sx - ox, sy - oy)
  }

  /** The screen point relative to the view's origin, with no rotation. */
  function Offset(screenPoint: Point, view: Rect): Point {
    Point(screenPoint.x - view.origin.x, screenPoint.y - view.origin.y)
  }

  /** The reflection of a view-relative point through the centre of the view's
      pixel grid, which maps [0, w-1] x [0, h-1] onto itself. */
  function Reflect(p: Point, view: Rect): Point {
    Point(view.size.width - 1.0 - p.x, view.size.height - 1.0 - p.y)
  }

  /** Portrait, and every orientation without a case of its own (face up,
      face down, unknown), is a plain offset by the view's origin; so is
      upside-down on a phone that did not come from landscape. */
  lemma NormalizePointOffsetCases(current: DeviceOrientation, previous: DeviceOrientation, ipad: bool,
                                  screenPoint: Point, view: Rect)
    requires !IsValidInterfaceOrientation(current) || current == Portrait
             || (current == PortraitUpsideDown && !ipad && !IsLandscape(previous))
    ensures NormalizePoint(current, previous, ipad, screenPoint, view) == Offset(screenPoint, view)
  {
  }

  /** The two landscape mappings written out: landscape-right takes the
      screen's y for x and counts x down from the bottom of the view;
      landscape-left counts the screen's y down from the right of the view
      and takes x for y. */
  lemma NormalizePointLandscape(previous: DeviceOrientation, ipad: bool, screenPoint: Point, view: Rect)
    ensures NormalizePoint(LandscapeRight, previous, ipad, screenPoint, view)
            == Point(screenPoint.y - view.origin.x, view.size.height - 1.0 - (screenPoint.x - view.origin.y))
    ensures NormalizePoint(LandscapeLeft, previous, ipad, screenPoint, view)
            == Point(view.size.width - 1.0 - (screenPoint.y - view.origin.x), screenPoint.x - view.origin.y)
  {
  }

  /** Upside-down on an iPad reflects the offset point through the view, so
      applying the reflection again gives back the plain offset. */
  lemma NormalizePointUpsideDownOnIpad(previous: DeviceOrientation, screenPoint: Point, view: Rect)
    ensures NormalizePoint(PortraitUpsideDown, previous, true, screenPoint, view)
            == Reflect(Offset(screenPoint, view), view)
    ensures Reflect(NormalizePoint(PortraitUpsideDown, previous, true, screenPoint, view), view)
            == Offset(screenPoint, view)
  {
  }

  /** Upside-down on a phone that was last in landscape keeps the landscape-right
      mapping, whichever landscape it came from. */
  lemma NormalizePointUpsideDownAfterLandscape(previous: DeviceOrientation, screenPoint: Point, view: Rect)
    requires IsLandscape(previous)
    ensures NormalizePoint(PortraitUpsideDown, previous, false, screenPoint, view)
            == NormalizePoint(LandscapeRight, previous, false, screenPoint, view)
  {
  }

  /** Landscape-left is landscape-right turned half way round inside the view:
      its result is the reflection of landscape-right's. */
  lemma NormalizePointLandscapeLeftReflectsRight(previous: DeviceOrientation, ipad: bool,
                                                 screenPoint: Point, view: Rect)
    ensures NormalizePoint(LandscapeLeft, previous, ipad, screenPoint, view)
            == Reflect(NormalizePoint(LandscapeRight, previous, ipad, screenPoint, view), view)
  {
  }

  /** A point whose offset lies on the view's pixel grid [0, w-1] x [0, h-1]
      stays on it under the upside-down mapping of an iPad. */
  lemma NormalizePointUpsideDownStaysInView(previous: DeviceOrientation, screenPoint: Point, view: Rect)
    requires 0.0 <= screenPoint.x - view.origin.x <= view.size.width - 1.0
    requires 0.0 <= screenPoint.y - view.origin.y <= view.size.height - 1.0
    ensures var p := NormalizePoint(PortraitUpsideDown, previous, true, screenPoint, view);
            0.0 <= p.x <= view.size.width - 1.0 && 0.0 <= p.y <= view.size.height - 1.0
  {
  }

  /** The orientations the `supported` list can hold, in the order it lists them. */
  const SupportOrder: seq<DeviceOrientation> :=
    [Portrait, PortraitUpsideDown, LandscapeLeft, LandscapeRight]

  /** The `UISupportedInterfaceOrientations` entry that declares an orientation. */
  function PlistKey(o: DeviceOrientation): string {
    match o
    case Portrait => "UIInterfaceOrientationPortrait"
    case PortraitUpsideDown => "UIInterfaceOrientationPortraitUpsideDown"
    case LandscapeLeft => "UIInterfaceOrientationLandscapeLeft"
    case LandscapeRight => "UIInterfaceOrientationLandscapeRight"
    case _ => ""
  }

  /** `supported`: the orientations whose key is listed under
      `UISupportedInterfaceOrientations`, given as `plist` (`None` when the
      key is missing or is not a list of strings). */
  function Supported(plist: Option<seq<string>>): (r: seq<DeviceOrientation>)
    ensures plist.None? ==> r == []
    ensures forall o :: o in r <==> o in SupportOrder && plist.Some? && PlistKey(o) in plist.value
    ensures forall i, j :: 0 <= i < j < |r| ==> Rank(r[i]) < Rank(r[j])
  {
    match plist
    case None => []
    case Some(orientations) =>
      (if "UIInterfaceOrientationPortrait" in orientations then [Portrait] else [])
      + (if "UIInterfaceOrientationPortraitUpsideDown" in orientations then [PortraitUpsideDown] else [])
      + (if "UIInterfaceOrientationLandscapeLeft" in orientations then [LandscapeLeft] else [])
      + (if "UIInterfaceOrientationLandscapeRight" in orientations then [LandscapeRight] else [])
  }

  /** The position of an orientation in `SupportOrder`. */
  function Rank(o: DeviceOrientation): nat {
    match o
    case Portrait => 0
    case PortraitUpsideDown => 1
    case LandscapeLeft => 2
    case LandscapeRight => 3
    case _ => 4
  }

  /** `supported` never lists an orientation twice. */
  lemma SupportedHasNoDuplicates(plist: Option<seq<string>>)
    ensures var r := Supported(plist);
            forall i, j :: 0 <= i < j < |r| ==> r[i] != r[j]
  {
    var r := Supported(plist);
    forall i, j | 0 <= i < j < |r| ensures r[i] != r[j] {
      assert Rank(r[i]) < Rank(r[j]);
    }
  }

  /** The observer's state: the orientation now and before the last change,
      whether the device is an iPad, and the callback. The callback is
      represented by whether one is registered, and what it is passed is
      logged in `notified`. */
  class Observer {
    var current: DeviceOrientation
    var previous: DeviceOrientation
    const ipad: bool
    var hasCallback: bool
    var subscribed: bool
    ghost var notified: seq<(DeviceOrientation, DeviceOrientation)>

    /** `current` and `previous` always hold valid interface orientations. */
    ghost predicate Valid()
      reads this
    {
      IsValidInterfaceOrientation(current) && IsValidInterfaceOrientation(previous)
    }

    /** `init(callback:)`: both orientations start at the current one. */
    constructor (raw: DeviceOrientation, scene: Option<InterfaceOrientation>, ipad: bool, hasCallback: bool)
      ensures Valid()
      ensures current == Current(raw, scene) && previous == current
      ensures this.ipad == ipad && this.hasCallback == hasCallback && subscribed
      ensures notified == []
    {
      current := Current(raw, scene);
      previous := current;
      this.ipad := ipad;
      this.hasCallback := hasCallback;
      subscribed := true;
      notified := [];
    }

    /** The notification sink: on a valid new orientation, the old current one
        becomes the previous one, the new one becomes current, and the callback
        (when registered) receives the pair (current, previous). */
    method OrientationDidChange(raw: DeviceOrientation, scene: Option<InterfaceOrientation>)
      requires Valid()
      modifies this`current, this`previous, this`notified
      ensures Valid()
      ensures var newOrientation := Current(raw, scene);
              if old(subscribed) && IsValidInterfaceOrientation(newOrientation) then
                previous == old(current) && current == newOrientation
                && notified == old(notified) + (if hasCallback then [(current, previous)] else [])
              else
                current == old(current) && previous == old(previous) && notified == old(notified)
    {
      if subscribed {
        var newOrientation := Current(raw, scene);
        if IsValidInterfaceOrientation(newOrientation) {
          previous := current;
          current := newOrientation;
          if hasCallback {
            notified := notified + [(current, previous)];
          }
        }
      }
    }

    /** `register`: a callback is installed (replacing any earlier one). */
    method Register()
      modifies this`hasCallback
      ensures hasCallback
    {
      hasCallback := true;
    }

    /** `deregister`: the notification subscription is cancelled. */
    method Deregister()
      modifies this`subscribed
      ensures !subscribed
    {
      subscribed := false;
    }
  }

  /** Every orientation `Orientation.current` produces passes the sink's
      validity test, so a change notification always updates the state. */
  lemma ChangeNotificationAlwaysAccepted(raw: DeviceOrientation, scene: Option<InterfaceOrientation>)
    ensures IsValidInterfaceOrientation(Current(raw, scene))
  {
  }
}
