/** The composite gesture of `onSmartGesture` (the current version): one drag
    stream whose changes and end are classified into drag, drag-end, tap and
    left/right swipe, and a long press that fires a long tap and, for a short
    while, suppresses the tap that follows it.

    The SwiftUI recognisers are event sources: `OnChanged`, `OnEnded` and
    `OnLongPressEnded` are their handlers, each given the location, the drag
    translation's width and the time (`Date()`) in milliseconds. */
module Gesture {
  import opened Options
  import opened Geometry
  import opened Orientation
  import opened GestureCommon

  /** The thresholds (distances in points, durations in seconds) and which
      optional callbacks are registered. `normalizePoint` maps a view point
      to the caller's coordinates. */
  datatype Config = Config(
    dragThreshold: real,
    swipeThreshold: real,
    swipeDurationThreshold: real,
    longTapThreshold: real,
    longTapPreemptTapThreshold: real,
    normalizePoint: Option<Point -> Point>,
    hasLongTap: bool,
    hasSwipeLeft: bool,
    hasSwipeRight: bool)

  /** `onSmartGesture`: the public entry point takes its durations in
      milliseconds and stores them in seconds. */
  function OnSmartGesture(dragThreshold: int := 10, swipeThreshold: int := 100,
                          swipeDurationThreshold: int := 700, longTapThreshold: int := 7,
                          longTapPreemptTapThreshold: int := 50,
                          normalizePoint: Option<Point -> Point> := None,
                          hasLongTap: bool := false, hasSwipeLeft: bool := false,
                          hasSwipeRight: bool := false): (c: Config)
    ensures c.dragThreshold == dragThreshold as real
    ensures c.swipeThreshold == swipeThreshold as real
    ensures c.longTapThreshold == longTapThreshold as real
    ensures c.swipeDurationThreshold * 1000.0 == swipeDurationThreshold as real
    ensures c.longTapPreemptTapThreshold * 1000.0 == longTapPreemptTapThreshold as real
    ensures c.normalizePoint == normalizePoint
    ensures c.hasLongTap == hasLongTap && c.hasSwipeLeft == hasSwipeLeft && c.hasSwipeRight == hasSwipeRight
  {
    Config(dragThreshold as real, swipeThreshold as real,
           swipeDurationThreshold as real / 1000.0, longTapThreshold as real,
           longTapPreemptTapThreshold as real / 1000.0,
           normalizePoint, hasLongTap, hasSwipeLeft, hasSwipeRight)
  }

  /** The modifier's `@State`: where and when the current drag stream began,
      whether it has become a drag, and when a long tap last fired. */
  datatype Session = Session(
    dragStart: Option<Point>,
    dragStartTime: Option<int>,
    dragging: bool,
    longTapTime: Option<int>)

  /** The state before any event. */
  const Initial: Session := Session(None, None, false, None)

  /** A drag has a start, and a start point always comes with its time. */
  predicate Consistent(s: Session) {
    (s.dragging ==> s.dragStart.Some?) && (s.dragStart.Some? <==> s.dragStartTime.Some?)
  }

  /** The state after one handler, and the callbacks it fired in order. */
  datatype Step = Step(session: Session, events: seq<Event>)

  /** The drag stream's `onChanged` handler. */
  function Changed(c: Config, s: Session, location: Point, now: int): (r: Step)
    ensures |r.events| <= 1
    ensures s.dragging ==> r.session == s
    ensures r.session.longTapTime == s.longTapTime
    ensures Consistent(s) ==> Consistent(r.session) && r.session.dragStart.Some?
    ensures s.dragStart.Some? ==> r.session.dragStart == s.dragStart && r.session.dragStartTime == s.dragStartTime
  {
    if s.dragging then
      Step(s, [Drag(Normalize(c.normalizePoint, location))])
    else
      var started := if s.dragStart.None? then s.(dragStartTime := Some(now), dragStart := Some(location)) else s;
      var start := started.dragStart.value;
      if FartherThan(start, location, c.dragThreshold) then
        Step(started.(dragging := true), [Drag(Normalize(c.normalizePoint, start))])
      else
        Step(started, [])
  }

  /** The swipe duration test: a positive threshold bounds the time since the
      drag began; any other threshold compares a duration of 0 with it. */
  predicate WithinSwipeDuration(c: Config, s: Session, now: int) {
    var swipeDuration :=
      if c.swipeDurationThreshold > 0.0 && s.dragStartTime.Some? then Seconds(s.dragStartTime.value, now) else 0.0;
    swipeDuration <= c.swipeDurationThreshold
  }

  /** The swipe callback (at most one) that ends a drag. */
  function Swipe(c: Config, s: Session, orientation: Option<OrientationSnapshot>,
                 translationWidth: real, now: int): (r: seq<Event>)
    ensures r == [] || (r == [SwipeLeft] && c.hasSwipeLeft) || (r == [SwipeRight] && c.hasSwipeRight)
  {
    if (c.hasSwipeLeft || c.hasSwipeRight) && !UpsideDownButNotSupported(orientation)
       && WithinSwipeDuration(c, s, now)
    then
      if translationWidth < -c.swipeThreshold then (if c.hasSwipeLeft then [SwipeLeft] else [])
      else if translationWidth > c.swipeThreshold then (if c.hasSwipeRight then [SwipeRight] else [])
      else []
    else []
  }

  /** A long tap fired strictly less than the preempt threshold ago. */
  predicate TapPreempted(c: Config, s: Session, now: int) {
    s.longTapTime.Some? && Seconds(s.longTapTime.value, now) < c.longTapPreemptTapThreshold
  }

  /** The drag stream's `onEnded` handler. */
  function Ended(c: Config, s: Session, orientation: Option<OrientationSnapshot>,
                 location: Point, translationWidth: real, now: int): (r: Step)
    ensures r.session.dragStart.None? && r.session.dragStartTime.None? && !r.session.dragging
    ensures |r.events| <= 2
  {
    var events :=
      if s.dragging then [DragEnd(Normalize(c.normalizePoint, location))] + Swipe(c, s, orientation, translationWidth, now)
      else if TapPreempted(c, s, now) then []
      else [Tap(Normalize(c.normalizePoint, location))];
    Step(Session(None, None, false, if s.dragging then s.longTapTime else None), events)
  }

  /** The long press is accepted: it completed with a location that is not
      too far from where the drag stream began (if it began). */
  predicate LongTapAccepted(c: Config, s: Session, value: LongPressValue) {
    c.hasLongTap && value.Second? && value.pressed && value.drag.Some?
    && (s.dragStart.None? || WithinDistance(s.dragStart.value, value.drag.value, c.longTapThreshold))
  }

  /** The long-press gesture's `onEnded` handler (attached only when an
      `onLongTap` callback is given). */
  function LongPressEnded(c: Config, s: Session, value: LongPressValue, now: int): (r: Step)
    ensures r.session.(longTapTime := s.longTapTime) == s
    ensures |r.events| <= 1
  {
    if LongTapAccepted(c, s, value) then
      Step(s.(longTapTime := Some(now)), [LongTap(Normalize(c.normalizePoint, value.drag.value))])
    else
      Step(s, [])
  }

  // ---------------------------------------------------------------------------
  // The modifier as an object whose handlers update its state in place

  class SmartGesture {
    const config: Config
    var dragStart: Option<Point>
    var dragStartTime: Option<int>
    var dragging: bool
    var onLongTapTriggeredTime: Option<int>
    /** The callbacks fired so far, in order. */
    ghost var log: seq<Event>

    function State(): Session
      reads this
    {
      Session(dragStart, dragStartTime, dragging, onLongTapTriggeredTime)
    }

    ghost predicate Valid()
      reads this
    {
      Consistent(State())
    }

    constructor (config: Config)
      ensures Valid() && this.config == config && State() == Initial && log == []
    {
      this.config := config;
      dragStart, dragStartTime, dragging, onLongTapTriggeredTime := None, None, false, None;
      log := [];
    }

    method OnChanged(location: Point, now: int)
      requires Valid()
      modifies this
      ensures Valid()
      ensures var step := Changed(config, old(State()), location, now);
              State() == step.session && log == old(log) + step.events
    {
      if dragging {
        log := log + [Drag(Normalize(config.normalizePoint, location))];
      } else {
        if dragStart == None {
          dragStartTime := Some(now);
          dragStart := Some(location);
        }
        if FartherThan(dragStart.value, location, config.dragThreshold) {
          dragging := true;
          log := log + [Drag(Normalize(config.normalizePoint, dragStart.value))];
        }
      }
    }

    method OnEnded(orientation: Option<OrientationSnapshot>, location: Point, translationWidth: real, now: int)
      requires Valid()
      modifies this
      ensures Valid()
      ensures var step := Ended(config, old(State()), orientation, location, translationWidth, now);
              State() == step.session && log == old(log) + step.events
    {
      if dragging {
        var swipeLeft, swipeRight := false, false;
        if config.hasSwipeLeft || config.hasSwipeRight {
          var swipeDuration: real :=
            if config.swipeDurationThreshold > 0.0 && dragStartTime != None
            then Seconds(dragStartTime.value, now) else 0.0;
          var upsideDown := orientation != None && orientation.value.current == PortraitUpsideDown;
          var upsideDownButNotActuallySupported := upsideDown && PortraitUpsideDown !in orientation.value.supported;
          if !upsideDownButNotActuallySupported && swipeDuration <= config.swipeDurationThreshold {
            var swipeDistance := translationWidth;
            if swipeDistance < -config.swipeThreshold {
              swipeLeft := config.hasSwipeLeft;
            } else if swipeDistance > config.swipeThreshold {
              swipeRight := config.hasSwipeRight;
            }
          }
        }
        // onDragEnd fires before any swipe callback.
        log := log + [DragEnd(Normalize(config.normalizePoint, location))];
        if swipeLeft {
          log := log + [SwipeLeft];
        } else if swipeRight {
          log := log + [SwipeRight];
        }
      } else {
        var onLongTapTriggeredRecently :=
          if onLongTapTriggeredTime != None
          then Seconds(onLongTapTriggeredTime.value, now) < config.longTapPreemptTapThreshold
          else false;
        onLongTapTriggeredTime := None;
        if !onLongTapTriggeredRecently {
          log := log + [Tap(Normalize(config.normalizePoint, location))];
        }
      }
      dragStart := None;
      dragStartTime := None;
      dragging := false;
    }

    method OnLongPressEnded(value: LongPressValue, now: int)
      requires Valid()
      modifies this
      ensures Valid()
      ensures var step := LongPressEnded(config, old(State()), value, now);
              State() == step.session && log == old(log) + step.events
    {
      if config.hasLongTap {
        match value
        case Second(true, drag) =>
          if drag != None {
            var location := drag.value;
            if dragStart == None || WithinDistance(dragStart.value, location, config.longTapThreshold) {
              onLongTapTriggeredTime := Some(now);
              log := log + [LongTap(Normalize(config.normalizePoint, location))];
            }
          }
        case _ =>
      }
    }
  }

  // ---------------------------------------------------------------------------
  // Properties of one handler

  /** While dragging, every change reports the (normalised) current location
      and changes nothing. */
  lemma ChangedWhileDragging(c: Config, s: Session, location: Point, now: int)
    requires s.dragging
    ensures Changed(c, s, location, now) == Step(s, [Drag(Normalize(c.normalizePoint, location))])
  {
  }

  /** Before dragging: the first change records where and when the stream
      began; a drag starts exactly when the location is farther than the drag
      threshold from that start, and its one `onDrag` reports the start point,
      not the current location. */
  lemma ChangedBeforeDragging(c: Config, s: Session, location: Point, now: int)
    requires !s.dragging
    ensures var step := Changed(c, s, location, now);
            var start := s.dragStart.GetOr(location);
            && step.session.dragStart == Some(start)
            && step.session.dragStartTime == (if s.dragStart.None? then Some(now) else s.dragStartTime)
            && step.session.longTapTime == s.longTapTime
            && (step.session.dragging <==> FartherThan(start, location, c.dragThreshold))
            && step.events == (if step.session.dragging then [Drag(Normalize(c.normalizePoint, start))] else [])
  {
  }

  /** Every handler keeps the session consistent. */
  lemma HandlersKeepConsistency(c: Config, s: Session, orientation: Option<OrientationSnapshot>,
                                location: Point, translationWidth: real, value: LongPressValue, now: int)
    requires Consistent(s)
    ensures Consistent(Changed(c, s, location, now).session)
    ensures Consistent(Ended(c, s, orientation, location, translationWidth, now).session)
    ensures Consistent(LongPressEnded(c, s, value, now).session)
  {
  }

  /** The end of a stream always clears the start point, the start time and
      the drag flag. The long-tap time survives a drag and is cleared otherwise. */
  lemma EndedResets(c: Config, s: Session, orientation: Option<OrientationSnapshot>,
                    location: Point, translationWidth: real, now: int)
    ensures var next := Ended(c, s, orientation, location, translationWidth, now).session;
            next.dragStart.None? && next.dragStartTime.None? && !next.dragging
            && next.longTapTime == (if s.dragging then s.longTapTime else None)
  {
  }

  /** Ending a drag fires `onDragEnd` first, exactly once, never `onTap`, and
      then at most one swipe callback. */
  lemma EndedWhileDragging(c: Config, s: Session, orientation: Option<OrientationSnapshot>,
                           location: Point, translationWidth: real, now: int)
    requires s.dragging
    ensures var events := Ended(c, s, orientation, location, translationWidth, now).events;
            && 1 <= |events| <= 2
            && events[0] == DragEnd(Normalize(c.normalizePoint, location))
            && (forall i :: 0 < i < |events| ==> events[i] == SwipeLeft || events[i] == SwipeRight)
            && (forall i :: 0 <= i < |events| ==> !events[i].Tap?)
  {
  }

  /** `onSwipeLeft` fires exactly when a drag ends with a registered left
      callback, not upside-down-but-unsupported, within the swipe duration,
      and with a translation further left than the swipe threshold. */
  lemma SwipeLeftExactly(c: Config, s: Session, orientation: Option<OrientationSnapshot>,
                         location: Point, translationWidth: real, now: int)
    ensures SwipeLeft in Ended(c, s, orientation, location, translationWidth, now).events
            <==> s.dragging && c.hasSwipeLeft && !UpsideDownButNotSupported(orientation)
                 && WithinSwipeDuration(c, s, now) && translationWidth < -c.swipeThreshold
  {
    var events := Ended(c, s, orientation, location, translationWidth, now).events;
    if s.dragging {
      assert events == [DragEnd(Normalize(c.normalizePoint, location))] + Swipe(c, s, orientation, translationWidth, now);
    }
  }

  /** `onSwipeRight` fires exactly when a drag ends with a registered right
      callback, not upside-down-but-unsupported, within the swipe duration,
      and with a translation further right than the swipe threshold (and not
      also further left than its negation, which the left test sees first). */
  lemma SwipeRightExactly(c: Config, s: Session, orientation: Option<OrientationSnapshot>,
                          location: Point, translationWidth: real, now: int)
    ensures SwipeRight in Ended(c, s, orientation, location, translationWidth, now).events
            <==> s.dragging && c.hasSwipeRight && !UpsideDownButNotSupported(orientation)
                 && WithinSwipeDuration(c, s, now)
                 && !(translationWidth < -c.swipeThreshold) && translationWidth > c.swipeThreshold
  {
    var events := Ended(c, s, orientation, location, translationWidth, now).events;
    if s.dragging {
      assert events == [DragEnd(Normalize(c.normalizePoint, location))] + Swipe(c, s, orientation, translationWidth, now);
    }
  }

  /** Ending a stream that never became a drag fires `onTap` unless a long
      tap fired too recently, and nothing else. */
  lemma EndedWithoutDragging(c: Config, s: Session, orientation: Option<OrientationSnapshot>,
                             location: Point, translationWidth: real, now: int)
    requires !s.dragging
    ensures Ended(c, s, orientation, location, translationWidth, now).events
            == if TapPreempted(c, s, now) then [] else [Tap(Normalize(c.normalizePoint, location))]
  {
  }

  /** A long press fires `onLongTap` at the normalised location exactly when it
      is accepted; acceptance records the time and nothing else changes. */
  lemma LongPressEffect(c: Config, s: Session, value: LongPressValue, now: int)
    ensures var step := LongPressEnded(c, s, value, now);
            && step.session.dragStart == s.dragStart
            && step.session.dragStartTime == s.dragStartTime
            && step.session.dragging == s.dragging
            && (step.events != [] <==> LongTapAccepted(c, s, value))
            && (LongTapAccepted(c, s, value) ==>
                  step.events == [LongTap(Normalize(c.normalizePoint, value.drag.value))]
                  && step.session.longTapTime == Some(now))
            && (!LongTapAccepted(c, s, value) ==> step.session == s)
  {
  }

  /** The defaults of `onSmartGesture`. */
  lemma Defaults()
    ensures var c := OnSmartGesture();
            && c.dragThreshold == 10.0 && c.swipeThreshold == 100.0
            && c.swipeDurationThreshold == 0.7 && c.longTapThreshold == 7.0
            && c.longTapPreemptTapThreshold == 0.05
            && c.normalizePoint.None? && !c.hasLongTap && !c.hasSwipeLeft && !c.hasSwipeRight
  {
  }

  /** In the caller's milliseconds: a positive swipe duration threshold of
      `ms` admits a drag that lasted at most `ms` milliseconds; 0 disables the
      test; a negative threshold admits no swipe at all. */
  lemma SwipeDurationInMilliseconds(ms: int, s: Session, now: int)
    ensures var c := OnSmartGesture(swipeDurationThreshold := ms);
            WithinSwipeDuration(c, s, now)
            <==> if ms > 0 && s.dragStartTime.Some? then now - s.dragStartTime.value <= ms else ms >= 0
  {
    var c := OnSmartGesture(swipeDurationThreshold := ms);
    assert c.swipeDurationThreshold * 1000.0 == ms as real;
    if ms > 0 && s.dragStartTime.Some? {
      var d := Seconds(s.dragStartTime.value, now);
      assert d * 1000.0 == (now - s.dragStartTime.value) as real;
      assert d <= c.swipeDurationThreshold <==> d * 1000.0 <= c.swipeDurationThreshold * 1000.0;
    }
  }

  /** In the caller's milliseconds: a tap is suppressed when a long tap fired
      strictly less than `ms` milliseconds before. */
  lemma TapPreemptInMilliseconds(ms: int, s: Session, now: int)
    ensures var c := OnSmartGesture(longTapPreemptTapThreshold := ms);
            TapPreempted(c, s, now) <==> s.longTapTime.Some? && now - s.longTapTime.value < ms
  {
    var c := OnSmartGesture(longTapPreemptTapThreshold := ms);
    assert c.longTapPreemptTapThreshold * 1000.0 == ms as real;
    if s.longTapTime.Some? {
      var d := Seconds(s.longTapTime.value, now);
      assert d * 1000.0 == (now - s.longTapTime.value) as real;
      assert d < c.longTapPreemptTapThreshold <==> d * 1000.0 < c.longTapPreemptTapThreshold * 1000.0;
    }
  }

  /** A long tap at time `t` suppresses the tap of a stream that ends,
      without dragging, less than the preempt threshold later, and only then. */
  lemma LongTapSuppressesTap(c: Config, s: Session, value: LongPressValue, t: int,
                             orientation: Option<OrientationSnapshot>, location: Point,
                             translationWidth: real, now: int)
    requires !s.dragging && LongTapAccepted(c, s, value)
    ensures var afterLongTap := LongPressEnded(c, s, value, t).session;
            var events := Ended(c, afterLongTap, orientation, location, translationWidth, now).events;
            (events == []) <==> Seconds(t, now) < c.longTapPreemptTapThreshold
  {
  }

  // ---------------------------------------------------------------------------
  // Properties of a stream of changes

  /** One `onChanged` event of the drag stream. */
  datatype Move = Move(location: Point, time: int)

  /** The changes of a stream, handled in order. */
  function RunChanges(c: Config, s: Session, moves: seq<Move>): Step
    decreases |moves|
  {
    if moves == [] then Step(s, [])
    else
      var first := Changed(c, s, moves[0].location, moves[0].time);
      var rest := RunChanges(c, first.session, moves[1..]);
      Step(rest.session, first.events + rest.events)
  }

  /** Once dragging, the stream reports every change, in order, and the
      session stays as it is. */
  lemma {:induction false} DraggingReportsEveryMove(c: Config, s: Session, moves: seq<Move>)
    requires s.dragging
    ensures var r := RunChanges(c, s, moves);
            && r.session == s
            && |r.events| == |moves|
            && (forall i :: 0 <= i < |moves| ==> r.events[i] == Drag(Normalize(c.normalizePoint, moves[i].location)))
    decreases |moves|
  {
    if moves != [] {
      DraggingReportsEveryMove(c, s, moves[1..]);
      var rest := RunChanges(c, s, moves[1..]);
      assert RunChanges(c, s, moves).events == [Drag(Normalize(c.normalizePoint, moves[0].location))] + rest.events;
      forall i | 0 < i < |moves|
        ensures RunChanges(c, s, moves).events[i] == Drag(Normalize(c.normalizePoint, moves[i].location))
      {
        assert moves[1..][i - 1] == moves[i];
      }
    }
  }

  /** A stream that has not become a drag (with `start` its start point, or
      the first location if none is recorded yet) becomes one exactly when
      some change is farther than the drag threshold from the start; it then
      fires only `onDrag`, and the first one reports the start point. */
  lemma {:induction false} FirstDragReportsStart(c: Config, s: Session, moves: seq<Move>)
    requires !s.dragging && moves != []
    ensures var start := s.dragStart.GetOr(moves[0].location);
            var r := RunChanges(c, s, moves);
            && AllDrags(r.events)
            && r.session.dragStart == Some(start)
            && (r.session.dragging <==> r.events != [])
            && (r.session.dragging <==> exists i :: 0 <= i < |moves| && FartherThan(start, moves[i].location, c.dragThreshold))
            && (r.events != [] ==> r.events[0] == Drag(Normalize(c.normalizePoint, start)))
    decreases |moves|
  {
    var start := s.dragStart.GetOr(moves[0].location);
    var first := Changed(c, s, moves[0].location, moves[0].time);
    var rest := RunChanges(c, first.session, moves[1..]);
    ChangedBeforeDragging(c, s, moves[0].location, moves[0].time);
    if first.session.dragging {
      DraggingReportsEveryMove(c, first.session, moves[1..]);
      assert AllDrags(first.events + rest.events);
    } else if moves[1..] != [] {
      FirstDragReportsStart(c, first.session, moves[1..]);
      assert first.session.dragStart.GetOr(moves[1..][0].location) == start;
      if exists i :: 0 <= i < |moves| && FartherThan(start, moves[i].location, c.dragThreshold) {
        var i :| 0 <= i < |moves| && FartherThan(start, moves[i].location, c.dragThreshold);
        assert i != 0;
        assert moves[1..][i - 1] == moves[i];
      }
      if exists j :: 0 <= j < |moves[1..]| && FartherThan(start, moves[1..][j].location, c.dragThreshold) {
        var j :| 0 <= j < |moves[1..]| && FartherThan(start, moves[1..][j].location, c.dragThreshold);
        assert moves[j + 1] == moves[1..][j];
      }
    }
  }

  // ---------------------------------------------------------------------------
  // Whole interactions

  /** One event delivered to the modifier. */
  datatype Input =
    | Change(location: Point, time: int)
    | End(orientation: Option<OrientationSnapshot>, location: Point, translationWidth: real, time: int)
    | LongPress(value: LongPressValue, time: int)

  /** The events of an interaction, handled in order. */
  function Run(c: Config, s: Session, inputs: seq<Input>): Step
    decreases |inputs|
  {
    if inputs == [] then Step(s, [])
    else
      var first :=
        match inputs[0]
        case Change(location, time) => Changed(c, s, location, time)
        case End(orientation, location, width, time) => Ended(c, s, orientation, location, width, time)
        case LongPress(value, time) => LongPressEnded(c, s, value, time);
      var rest := Run(c, first.session, inputs[1..]);
      Step(rest.session, first.events + rest.events)
  }

  /** A touch at (0,0) lifted at (2,2) 50 ms later, with the default drag
      threshold of 10 points, is one tap at (2,2). */
  lemma ScenarioTap()
    ensures Run(OnSmartGesture(), Initial,
                [Change(Point(0.0, 0.0), 0), Change(Point(2.0, 2.0), 50),
                 End(None, Point(2.0, 2.0), 2.0, 50)]).events
            == [Tap(Point(2.0, 2.0))]
  {
    var c := OnSmartGesture();
    var s1 := Changed(c, Initial, Point(0.0, 0.0), 0).session;
    var s2 := Changed(c, s1, Point(2.0, 2.0), 50).session;
    assert !s2.dragging;
  }

  /** A 20-point move to the right within 120 ms, with a drag threshold of 10,
      a swipe threshold of 15 and a 700 ms swipe duration, fires one `onDrag`
      at the start point, then `onDragEnd`, then `onSwipeRight`. */
  lemma ScenarioSwipeRight()
    ensures Run(OnSmartGesture(dragThreshold := 10, swipeThreshold := 15, swipeDurationThreshold := 700,
                               hasSwipeRight := true),
                Initial,
                [Change(Point(0.0, 0.0), 0), Change(Point(20.0, 0.0), 50),
                 End(None, Point(20.0, 0.0), 20.0, 120)]).events
            == [Drag(Point(0.0, 0.0)), DragEnd(Point(20.0, 0.0)), SwipeRight]
  {
    var c := OnSmartGesture(dragThreshold := 10, swipeThreshold := 15, swipeDurationThreshold := 700,
                            hasSwipeRight := true);
    var s1 := Changed(c, Initial, Point(0.0, 0.0), 0).session;
    var s2 := Changed(c, s1, Point(20.0, 0.0), 50).session;
    assert s2.dragging && s2.dragStartTime == Some(0);
    assert WithinSwipeDuration(c, s2, 120);
  }

  /** A long press that ends 5 points across and 5 down from the start is
      about 7.07 points away, beyond a tolerance of 6: it is not a long tap,
      and lifting the finger is a tap. */
  lemma ScenarioLongPressTooFar()
    ensures Run(OnSmartGesture(longTapThreshold := 6, hasLongTap := true), Initial,
                [Change(Point(0.0, 0.0), 0), Change(Point(5.0, 5.0), 500),
                 LongPress(Second(true, Some(Point(5.0, 5.0))), 1000),
                 End(None, Point(5.0, 5.0), 5.0, 1030)]).events
            == [Tap(Point(5.0, 5.0))]
  {
    var c := OnSmartGesture(longTapThreshold := 6, hasLongTap := true);
    var s1 := Changed(c, Initial, Point(0.0, 0.0), 0).session;
    var s2 := Changed(c, s1, Point(5.0, 5.0), 500).session;
    assert !s2.dragging && s2.dragStart == Some(Point(0.0, 0.0));
    assert !LongTapAccepted(c, s2, Second(true, Some(Point(5.0, 5.0))));
  }

  /** A long press that ends at (4,4), within a tolerance of 6 of the start,
      is a long tap; lifting the finger 30 ms later, inside the 50 ms preempt
      window, fires no tap. */
  lemma ScenarioLongTapThenNoTap()
    ensures Run(OnSmartGesture(longTapThreshold := 6, hasLongTap := true), Initial,
                [Change(Point(0.0, 0.0), 0), Change(Point(4.0, 4.0), 500),
                 LongPress(Second(true, Some(Point(4.0, 4.0))), 1000),
                 End(None, Point(4.0, 4.0), 4.0, 1030)]).events
            == [LongTap(Point(4.0, 4.0))]
  {
    var c := OnSmartGesture(longTapThreshold := 6, hasLongTap := true);
    var s1 := Changed(c, Initial, Point(0.0, 0.0), 0).session;
    var s2 := Changed(c, s1, Point(4.0, 4.0), 500).session;
    assert !s2.dragging && s2.dragStart == Some(Point(0.0, 0.0));
    assert LongTapAccepted(c, s2, Second(true, Some(Point(4.0, 4.0))));
    var s3 := LongPressEnded(c, s2, Second(true, Some(Point(4.0, 4.0))), 1000).session;
    assert TapPreempted(c, s3, 1030);
  }
}
