/** The older composite gesture of `onSmartGesture` (the `Utils` package copy).
    It keeps only the start point and the drag flag: the first `onDrag`
    reports the location that crossed the threshold, swipes are evaluated on
    every end and fire before `onDragEnd` / `onTap`, there is no swipe
    duration, and every completed long press is a long tap. */
module LegacyGesture {
  import opened Options
  import opened Geometry
  import opened Orientation
  import opened GestureCommon

  /** The two distance thresholds and which swipe callbacks are registered;
      `onLongTap` always exists (its default does nothing). */
  datatype Config = Config(
    dragThreshold: real,
    swipeThreshold: real,
    normalizePoint: Option<Point -> Point>,
    hasSwipeLeft: bool,
    hasSwipeRight: bool)

  /** `onSmartGesture` with the defaults of this version. */
  function OnSmartGesture(dragThreshold: int := 10, swipeThreshold: int := 100,
                          normalizePoint: Option<Point -> Point> := None,
                          hasSwipeLeft: bool := false, hasSwipeRight: bool := false): (c: Config)
    ensures c.dragThreshold == dragThreshold as real && c.swipeThreshold == swipeThreshold as real
    ensures c.normalizePoint == normalizePoint
    ensures c.hasSwipeLeft == hasSwipeLeft && c.hasSwipeRight == hasSwipeRight
  {
    Config(dragThreshold as real, swipeThreshold as real, normalizePoint, hasSwipeLeft, hasSwipeRight)
  }

  /** The modifier's `@State`. */
  datatype Session = Session(dragStart: Option<Point>, dragging: bool)

  const Initial: Session := Session(None, false)

  /** A drag has a start. */
  predicate Consistent(s: Session) {
    s.dragging ==> s.dragStart.Some?
  }

  datatype Step = Step(session: Session, events: seq<Event>)

  /** The drag stream's `onChanged` handler. */
  function Changed(c: Config, s: Session, location: Point): (r: Step)
    ensures |r.events| <= 1
    ensures s.dragging ==> r.session == s
    ensures s.dragStart.Some? ==> r.session.dragStart == s.dragStart
    ensures Consistent(s) ==> Consistent(r.session) && r.session.dragStart.Some?
  {
    if s.dragging then
      Step(s, [Drag(Normalize(c.normalizePoint, location))])
    else
      var start := s.dragStart.GetOr(location);
      if FartherThan(start, location, c.dragThreshold) then
        Step(Session(Some(start), true), [Drag(Normalize(c.normalizePoint, location))])
      else
        Step(Session(Some(start), false), [])
  }

  /** The swipe callback (at most one) that any end of a stream may fire. */
  function Swipe(c: Config, orientation: Option<OrientationSnapshot>, translationWidth: real): (r: seq<Event>)
    ensures r == [] || (r == [SwipeLeft] && c.hasSwipeLeft) || (r == [SwipeRight] && c.hasSwipeRight)
  {
    if (c.hasSwipeLeft || c.hasSwipeRight) && !UpsideDownButNotSupported(orientation) then
      if translationWidth < -c.swipeThreshold then (if c.hasSwipeLeft then [SwipeLeft] else [])
      else if translationWidth > c.swipeThreshold then (if c.hasSwipeRight then [SwipeRight] else [])
      else []
    else []
  }

  /** The drag stream's `onEnded` handler. */
  function Ended(c: Config, s: Session, orientation: Option<OrientationSnapshot>,
                 location: Point, translationWidth: real): (r: Step)
    ensures r.session == Initial
    ensures 1 <= |r.events| <= 2
    ensures r.events[|r.events| - 1] == (if s.dragging then DragEnd(Normalize(c.normalizePoint, location))
                                         else Tap(Normalize(c.normalizePoint, location)))
  {
    var last := if s.dragging then DragEnd(Normalize(c.normalizePoint, location))
                else Tap(Normalize(c.normalizePoint, location));
    Step(Initial, Swipe(c, orientation, translationWidth) + [last])
  }

  /** The long-press gesture's `onEnded` handler. */
  function LongPressEnded(c: Config, s: Session, value: LongPressValue): (r: Step)
    ensures r.session == s && |r.events| <= 1
  {
    match value
    case Second(true, Some(location)) => Step(s, [LongTap(Normalize(c.normalizePoint, location))])
    case _ => Step(s, [])
  }

  class SmartGesture {
    const config: Config
    var dragStart: Option<Point>
    var dragging: bool
    /** The callbacks fired so far, in order. */
    ghost var log: seq<Event>

    function State(): Session
      reads this
    {
      Session(dragStart, dragging)
    }

    ghost predicate Valid()
      reads this
    {
      Consistent(State())
    }

    constructor (config: Config)
      ensures Valid() && this.config == config && State() == Initial && log == []
    {
      this.config := config;
      dragStart, dragging := None, false;
      log := [];
    }

    method OnChanged(location: Point)
      requires Valid()
      modifies this
      ensures Valid()
      ensures var step := Changed(config, old(State()), location);
              State() == step.session && log == old(log) + step.events
    {
      if dragging {
        log := log + [Drag(Normalize(config.normalizePoint, location))];
      } else {
        if dragStart == None {
          dragStart := Some(location);
        }
        if FartherThan(dragStart.value, location, config.dragThreshold) {
          dragging := true;
          log := log + [Drag(Normalize(config.normalizePoint, location))];
        }
      }
    }

    method OnEnded(orientation: Option<OrientationSnapshot>, location: Point, translationWidth: real)
      requires Valid()
      modifies this
      ensures Valid()
      ensures var step := Ended(config, old(State()), orientation, location, translationWidth);
              State() == step.session && log == old(log) + step.events
    {
      if config.hasSwipeLeft || config.hasSwipeRight {
        var upsideDown := orientation != None && orientation.value.current == PortraitUpsideDown;
        var upsideDownButNotActuallySupported := upsideDown && PortraitUpsideDown !in orientation.value.supported;
        if !upsideDownButNotActuallySupported {
          var swipeDistance := translationWidth;
          if swipeDistance < -config.swipeThreshold {
            if config.hasSwipeLeft {
              log := log + [SwipeLeft];
            }
          } else if swipeDistance > config.swipeThreshold {
            if config.hasSwipeRight {
              log := log + [SwipeRight];
            }
          }
        }
      }
      if dragging {
        log := log + [DragEnd(Normalize(config.normalizePoint, location))];
      } else {
        log := log + [Tap(Normalize(config.normalizePoint, location))];
      }
      dragStart := None;
      dragging := false;
    }

    method OnLongPressEnded(value: LongPressValue)
      modifies this
      ensures var step := LongPressEnded(config, old(State()), value);
              State() == step.session && log == old(log) + step.events
    {
      match value
      case Second(true, drag) =>
        if drag != None {
          var location := drag.value;
          log := log + [LongTap(Normalize(config.normalizePoint, location))];
        }
      case _ =>
    }
  }

  // ---------------------------------------------------------------------------
  // Properties

  /** Before dragging: the first change records the start point; a drag starts
      exactly when the location is farther than the threshold from the start,
      and its first `onDrag` reports that current location. */
  lemma ChangedBeforeDragging(c: Config, s: Session, location: Point)
    requires !s.dragging
    ensures var step := Changed(c, s, location);
            var start := s.dragStart.GetOr(location);
            && step.session.dragStart == Some(start)
            && (step.session.dragging <==> FartherThan(start, location, c.dragThreshold))
            && step.events == (if step.session.dragging then [Drag(Normalize(c.normalizePoint, location))] else [])
  {
  }

  /** While dragging, every change reports the normalised current location. */
  lemma ChangedWhileDragging(c: Config, s: Session, location: Point)
    requires s.dragging
    ensures Changed(c, s, location) == Step(s, [Drag(Normalize(c.normalizePoint, location))])
  {
  }

  /** Every end fires at most one swipe first and then exactly one of
      `onDragEnd` (after a drag) or `onTap` (otherwise), and resets the state. */
  lemma EndedShape(c: Config, s: Session, orientation: Option<OrientationSnapshot>,
                   location: Point, translationWidth: real)
    ensures var step := Ended(c, s, orientation, location, translationWidth);
            var events := step.events;
            var p := Normalize(c.normalizePoint, location);
            && step.session == Initial
            && 1 <= |events| <= 2
            && events[|events| - 1] == (if s.dragging then DragEnd(p) else Tap(p))
            && (forall i :: 0 <= i < |events| - 1 ==> events[i] == SwipeLeft || events[i] == SwipeRight)
            && (forall i :: 0 <= i < |events| ==> events[i] != Tap(p) || !s.dragging)
  {
  }

  /** `onSwipeLeft` fires exactly when a left callback is registered, the
      device is not upside-down-but-unsupported, and the translation is
      further left than the threshold: whether or not the stream was a drag,
      and however long it took. */
  lemma SwipeLeftExactly(c: Config, s: Session, orientation: Option<OrientationSnapshot>,
                         location: Point, translationWidth: real)
    ensures SwipeLeft in Ended(c, s, orientation, location, translationWidth).events
            <==> c.hasSwipeLeft && !UpsideDownButNotSupported(orientation) && translationWidth < -c.swipeThreshold
  {
    var step := Ended(c, s, orientation, location, translationWidth);
    var last := if s.dragging then DragEnd(Normalize(c.normalizePoint, location))
                else Tap(Normalize(c.normalizePoint, location));
    assert step.events == Swipe(c, orientation, translationWidth) + [last];
  }

  /** `onSwipeRight` fires exactly when a right callback is registered, the
      device is not upside-down-but-unsupported, and the translation is
      further right than the threshold (and not further left than its
      negation, which the left test sees first). */
  lemma SwipeRightExactly(c: Config, s: Session, orientation: Option<OrientationSnapshot>,
                          location: Point, translationWidth: real)
    ensures SwipeRight in Ended(c, s, orientation, location, translationWidth).events
            <==> c.hasSwipeRight && !UpsideDownButNotSupported(orientation)
                 && !(translationWidth < -c.swipeThreshold) && translationWidth > c.swipeThreshold
  {
    var step := Ended(c, s, orientation, location, translationWidth);
    var last := if s.dragging then DragEnd(Normalize(c.normalizePoint, location))
                else Tap(Normalize(c.normalizePoint, location));
    assert step.events == Swipe(c, orientation, translationWidth) + [last];
  }

  /** Every completed long press with a location is a long tap at the
      normalised point, however far it moved; the state is untouched. */
  lemma LongPressAlwaysLongTap(c: Config, s: Session, location: Point)
    ensures LongPressEnded(c, s, Second(true, Some(location))) == Step(s, [LongTap(Normalize(c.normalizePoint, location))])
  {
  }

  /** One `onChanged` event of the drag stream. */
  function RunChanges(c: Config, s: Session, moves: seq<Point>): Step
    decreases |moves|
  {
    if moves == [] then Step(s, [])
    else
      var first := Changed(c, s, moves[0]);
      var rest := RunChanges(c, first.session, moves[1..]);
      Step(rest.session, first.events + rest.events)
  }

  /** Once dragging, every change is reported, in order. */
  lemma {:induction false} DraggingReportsEveryMove(c: Config, s: Session, moves: seq<Point>)
    requires s.dragging
    ensures var r := RunChanges(c, s, moves);
            && r.session == s
            && |r.events| == |moves|
            && (forall i :: 0 <= i < |moves| ==> r.events[i] == Drag(Normalize(c.normalizePoint, moves[i])))
    decreases |moves|
  {
    if moves != [] {
      DraggingReportsEveryMove(c, s, moves[1..]);
      forall i | 0 < i < |moves|
        ensures RunChanges(c, s, moves).events[i] == Drag(Normalize(c.normalizePoint, moves[i]))
      {
        assert moves[1..][i - 1] == moves[i];
      }
    }
  }

  /** In a stream that has not become a drag, the first `onDrag` reports the
      first location farther than the threshold from the start, and every
      later change is reported after it. */
  lemma {:induction false} FirstDragReportsCrossing(c: Config, s: Session, moves: seq<Point>, k: nat)
    requires !s.dragging && k < |moves|
    requires FartherThan(s.dragStart.GetOr(moves[0]), moves[k], c.dragThreshold)
    requires forall i :: 0 <= i < k ==> !FartherThan(s.dragStart.GetOr(moves[0]), moves[i], c.dragThreshold)
    ensures var r := RunChanges(c, s, moves);
            && r.session.dragging
            && |r.events| == |moves| - k
            && (forall i :: k <= i < |moves| ==> r.events[i - k] == Drag(Normalize(c.normalizePoint, moves[i])))
    decreases k
  {
    var first := Changed(c, s, moves[0]);
    if k == 0 {
      DraggingReportsEveryMove(c, first.session, moves[1..]);
      var rest := RunChanges(c, first.session, moves[1..]);
      forall i | 0 < i < |moves|
        ensures RunChanges(c, s, moves).events[i] == Drag(Normalize(c.normalizePoint, moves[i]))
      {
        assert rest.events[i - 1] == Drag(Normalize(c.normalizePoint, moves[1..][i - 1]));
        assert moves[1..][i - 1] == moves[i];
      }
    } else {
      var start := s.dragStart.GetOr(moves[0]);
      assert first.session == Session(Some(start), false);
      assert moves[1..][0] == moves[1];
      forall i | 0 <= i < k - 1
        ensures !FartherThan(first.session.dragStart.GetOr(moves[1..][0]), moves[1..][i], c.dragThreshold)
      {
        assert moves[1..][i] == moves[i + 1];
      }
      assert moves[1..][k - 1] == moves[k];
      FirstDragReportsCrossing(c, first.session, moves[1..], k - 1);
      var rest := RunChanges(c, first.session, moves[1..]);
      forall i | k <= i < |moves|
        ensures RunChanges(c, s, moves).events[i - k] == Drag(Normalize(c.normalizePoint, moves[i]))
      {
        assert rest.events[(i - 1) - (k - 1)] == Drag(Normalize(c.normalizePoint, moves[1..][i - 1]));
        assert moves[1..][i - 1] == moves[i];
      }
    }
  }
}
