/** How the two versions of `onSmartGesture` differ on the same input stream,
    each stated for every input (with matching thresholds and no
    normalisation). */
module GestureVersions {
  import opened Options
  import opened Geometry
  import opened GestureCommon
  import Gesture
  import LegacyGesture

  /** Two configurations expressing the same drag and swipe settings. */
  predicate SameSettings(n: Gesture.Config, o: LegacyGesture.Config) {
    n.dragThreshold == o.dragThreshold && n.swipeThreshold == o.swipeThreshold
    && n.normalizePoint == None && o.normalizePoint == None
    && n.hasSwipeLeft == o.hasSwipeLeft && n.hasSwipeRight == o.hasSwipeRight
  }

  /** Both versions start a drag on the same change (the same threshold test
      against the same start), but the first `onDrag` of the newer version
      reports the start point while the older one reports the location that
      crossed the threshold. */
  lemma FirstDragPointDiffers(n: Gesture.Config, o: LegacyGesture.Config, start: Point, location: Point, now: int)
    requires SameSettings(n, o)
    ensures var ns := Gesture.Changed(n, Gesture.Session(Some(start), Some(now), false, None), location, now);
            var os := LegacyGesture.Changed(o, LegacyGesture.Session(Some(start), false), location);
            && (ns.session.dragging <==> os.session.dragging)
            && (ns.session.dragging ==> ns.events == [Drag(start)] && os.events == [Drag(location)])
  {
  }

  /** At the end of a drag that swipes, the newer version reports `onDragEnd`
      before the swipe and the older one after it. */
  lemma SwipeOrderDiffers(n: Gesture.Config, o: LegacyGesture.Config, start: Point, now: int,
                          orientation: Option<OrientationSnapshot>, location: Point, translationWidth: real)
    requires SameSettings(n, o)
    requires n.hasSwipeLeft && !UpsideDownButNotSupported(orientation) && translationWidth < -n.swipeThreshold
    requires 0.0 <= n.swipeDurationThreshold
    ensures Gesture.Ended(n, Gesture.Session(Some(start), Some(now), true, None), orientation, location, translationWidth, now).events
            == [DragEnd(location), SwipeLeft]
    ensures LegacyGesture.Ended(o, LegacyGesture.Session(Some(start), true), orientation, location, translationWidth).events
            == [SwipeLeft, DragEnd(location)]
  {
  }

  /** A fast flick that never becomes a drag: the older version may still
      report a swipe before the tap; the newer one reports only the tap. */
  lemma SwipeWithoutDragOnlyInOlder(n: Gesture.Config, o: LegacyGesture.Config, start: Point, now: int,
                                    orientation: Option<OrientationSnapshot>, location: Point, translationWidth: real)
    requires SameSettings(n, o)
    requires o.hasSwipeRight && !UpsideDownButNotSupported(orientation)
    requires o.swipeThreshold < translationWidth && -o.swipeThreshold <= translationWidth
    ensures Gesture.Ended(n, Gesture.Session(Some(start), Some(now), false, None), orientation, location, translationWidth, now).events
            == [Tap(location)]
    ensures LegacyGesture.Ended(o, LegacyGesture.Session(Some(start), false), orientation, location, translationWidth).events
            == [SwipeRight, Tap(location)]
  {
  }

  /** A long press that wandered beyond the newer version's tolerance is
      still a long tap in the older version. */
  lemma LongTapToleranceOnlyInNewer(n: Gesture.Config, o: LegacyGesture.Config, start: Point, location: Point, now: int)
    requires SameSettings(n, o) && n.hasLongTap
    requires FartherThan(start, location, n.longTapThreshold)
    ensures Gesture.LongPressEnded(n, Gesture.Session(Some(start), Some(now), false, None), Second(true, Some(location)), now).events == []
    ensures LegacyGesture.LongPressEnded(o, LegacyGesture.Session(Some(start), false), Second(true, Some(location))).events
            == [LongTap(location)]
  {
    FartherThanIsNotWithin(start, location, n.longTapThreshold);
  }
}
