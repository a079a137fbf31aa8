/** The current device orientation (`Orientation.current`): the raw device
    reading, with the interface orientation of the first window scene as the
    fallback when the device reports `unknown`. Both readings are inputs. */
module Orientation {
  import opened Options

  /** `UIDeviceOrientation`. */
  datatype DeviceOrientation =
    | Unknown
    | Portrait
    | PortraitUpsideDown
    | LandscapeLeft
    | LandscapeRight
    | FaceUp
    | FaceDown

  /** `UIInterfaceOrientation`. */
  datatype InterfaceOrientation =
    | InterfaceUnknown
    | InterfacePortrait
    | InterfacePortraitUpsideDown
    | InterfaceLandscapeLeft
    | InterfaceLandscapeRight

  /** `isValidInterfaceOrientation`: one of the four upright-to-sideways positions. */
  predicate IsValidInterfaceOrientation(o: DeviceOrientation) {
    o.Portrait? || o.PortraitUpsideDown? || o.LandscapeLeft? || o.LandscapeRight?
  }

  /** `isLandscape`. */
  predicate IsLandscape(o: DeviceOrientation) {
    o.LandscapeLeft? || o.LandscapeRight?
  }

  /** `_deviceOrientation`: the device orientation that corresponds to an
      interface orientation. The interface's landscape-left is the device's
      landscape-right and vice versa (rotating the device one way rotates the
      interface the other way). */
  function DeviceOrientationOf(i: InterfaceOrientation): (d: DeviceOrientation)
    ensures d == Unknown || IsValidInterfaceOrientation(d)
    ensures d.Unknown? <==> i.InterfaceUnknown?
    ensures IsLandscape(d) <==> i.InterfaceLandscapeLeft? || i.InterfaceLandscapeRight?
    ensures d == Portrait <==> i == InterfacePortrait
    ensures d == PortraitUpsideDown <==> i == InterfacePortraitUpsideDown
    ensures d == LandscapeRight <==> i == InterfaceLandscapeLeft
    ensures d == LandscapeLeft <==> i == InterfaceLandscapeRight
  {
    match i
    case InterfacePortrait => Portrait
    case InterfacePortraitUpsideDown => PortraitUpsideDown
    case InterfaceLandscapeLeft => LandscapeRight
    case InterfaceLandscapeRight => LandscapeLeft
    case InterfaceUnknown => Unknown
  }

  /** The interface orientation that shows the same position, as a swap of
      the two landscape cases; the inverse of `DeviceOrientationOf`. */
  function InterfaceOrientationOf(d: DeviceOrientation): InterfaceOrientation {
    match d
    case Portrait => InterfacePortrait
    case PortraitUpsideDown => InterfacePortraitUpsideDown
    case LandscapeLeft => InterfaceLandscapeRight
    case LandscapeRight => InterfaceLandscapeLeft
    case _ => InterfaceUnknown
  }

  /** `DeviceOrientationOf` loses nothing: mapping back gives the interface
      orientation it came from. */
  lemma DeviceOrientationOfInvertible(i: InterfaceOrientation)
    ensures InterfaceOrientationOf(DeviceOrientationOf(i)) == i
  {
  }

  /** `_currentBackup`: the interface orientation of the first window scene,
      as a device orientation; `unknown` when there is no window scene. */
  function Backup(scene: Option<InterfaceOrientation>): (d: DeviceOrientation)
    ensures scene.None? ==> d == Unknown
    ensures scene.Some? ==> d == DeviceOrientationOf(scene.value)
  {
    DeviceOrientationOf(scene.GetOr(InterfaceUnknown))
  }

  /** `current`: the device reading, replaced by the scene-derived backup when
      it is `unknown`, then forced to a valid interface orientation (face-up,
      face-down and unknown all become portrait). */
  function Current(raw: DeviceOrientation, scene: Option<InterfaceOrientation>): (o: DeviceOrientation)
    ensures IsValidInterfaceOrientation(o)
    ensures IsValidInterfaceOrientation(raw) ==> o == raw
    ensures raw.FaceUp? || raw.FaceDown? ==> o == Portrait
    ensures raw.Unknown? && IsValidInterfaceOrientation(Backup(scene)) ==> o == Backup(scene)
    ensures raw.Unknown? && !IsValidInterfaceOrientation(Backup(scene)) ==> o == Portrait
  {
    var orientation := if raw == Unknown then Backup(scene) else raw;
    match orientation
    case Portrait | PortraitUpsideDown | LandscapeLeft | LandscapeRight => orientation
    case FaceUp | FaceDown => Portrait
    case Unknown => Portrait
  }

  /** With neither a device reading nor a window scene, the orientation is portrait. */
  lemma CurrentWithoutSceneIsPortrait()
    ensures Current(Unknown, None) == Portrait
  {
  }

  /** An unknown device reading on a scene shown in landscape-left gives the
      device orientation landscape-right. */
  lemma CurrentFromLandscapeScene()
    ensures Current(Unknown, Some(InterfaceLandscapeLeft)) == LandscapeRight
    ensures Current(Unknown, Some(InterfaceLandscapeRight)) == LandscapeLeft
  {
  }
}
