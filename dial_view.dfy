/** The DialView widget: a dial mounted beyond one edge of its surface that
    the user turns by dragging and that keeps turning after release. Every
    operation updates the view's fields in place. */
module Dial {
  import opened Geometry
  import opened Rotation
  import Fling
  import opened Ticks

  /** The gesture phase: not touched, touched but not yet moved, dragging. */
  datatype TouchState = Resting | Click | Scroll

  /** The pointer actions the view reacts to; `Other` stands for the rest. */
  datatype Action = Down | Move | Up | Other

  datatype MotionEvent = MotionEvent(action: Action, x: real, y: real)

  class DialView {
    // configuration, set once by init
    var maxValue: int
    var minValue: int
    var lineInterval: int
    var textSize: int
    var leastCount: int
    var centerPadding: int
    var dialDirection: int
    var tickGapAngle: real
    var angleToCompare: CompareAngle

    // layout, derived by each measure pass
    var tickCount: int
    var minAngleTheta: real
    var maxAngleTheta: real
    var centerX: int
    var centerY: int
    var radius: int

    // rotation
    var currentTheta: real
    var initTheta: real
    var delta: real

    // gesture: the phase, whether a velocity tracker is held, the anchor of
    // the drag and the latest pointer position, both in the dial's frame
    var touchState: TouchState
    var tracking: bool
    var lastTouchXCircle: real
    var lastTouchYCircle: real
    var xcircle: real
    var ycircle: real

    // fling: its velocity, the last clock reading (ns) and whether the fling
    // callback is queued to run
    var initVelocity: real
    var currentTime: int
    var flingScheduled: bool

    /** Whether a measure pass has run. */
    ghost var measured: bool

    /** The configuration as `init` left it. */
    function Settings(): Config
      reads this
    {
      Config(lineInterval, maxValue, minValue, leastCount, centerPadding, textSize, dialDirection, tickGapAngle)
    }

    function Layout(): Circle
      reads this
    {
      Circle(centerX, centerY, radius)
    }

    /** What `init` fixes for the life of the view. */
    ghost predicate ValidConfig()
      reads this`leastCount, this`angleToCompare, this`dialDirection
    {
      leastCount == 1 && angleToCompare == AngleToCompare(dialDirection)
    }

    /** The angle window as the latest measure pass (if any) derived it. */
    ghost predicate ValidWindow()
      reads this`measured, this`tickCount, this`minValue, this`maxValue, this`leastCount,
            this`tickGapAngle, this`minAngleTheta, this`maxAngleTheta
    {
      && leastCount != 0
      && minAngleTheta == 0.0
      && (measured ==> tickCount == TickCount(minValue, maxValue, leastCount)
                       && maxAngleTheta == Span(tickCount, tickGapAngle))
      && (!measured ==> tickCount == 0 && maxAngleTheta == 0.0)
    }

    /** The committed angle follows the tentative one, and the dial is at
        its starting angle or inside the window. */
    ghost predicate ValidAngle()
      reads this`currentTheta, this`initTheta, this`angleToCompare, this`minAngleTheta, this`maxAngleTheta
    {
      && currentTheta == initTheta
      && (currentTheta == BaseAngle(angleToCompare)
          || InWindow(angleToCompare, minAngleTheta, maxAngleTheta, currentTheta))
    }

    /** A velocity tracker is held exactly during a gesture, and a fling is
        only queued while no gesture is in progress (pointer-down cancels it). */
    ghost predicate ValidGesture()
      reads this`tracking, this`touchState, this`flingScheduled
    {
      && (tracking <==> touchState != Resting)
      && (flingScheduled ==> touchState == Resting)
    }

    ghost predicate Valid()
      reads this`leastCount, this`angleToCompare, this`dialDirection,
            this`measured, this`tickCount, this`minValue, this`maxValue, this`tickGapAngle,
            this`minAngleTheta, this`maxAngleTheta, this`currentTheta, this`initTheta,
            this`tracking, this`touchState, this`flingScheduled
    {
      ValidConfig() && ValidWindow() && ValidAngle() && ValidGesture()
    }

    /** The view as `init` leaves it, before any measure pass. */
    constructor (attrs: Option<Attributes>)
      ensures Valid() && !measured
      ensures Settings() == Configure(attrs)
      ensures angleToCompare == AngleToCompare(dialDirection)
      ensures currentTheta == initTheta == InitialTheta(dialDirection)
      ensures touchState == Resting && !flingScheduled && initVelocity == 0.5
      // every other field keeps Java's default of zero
      ensures delta == 0.0 && Layout() == Circle(0, 0, 0) && currentTime == 0
      ensures lastTouchXCircle == 0.0 && lastTouchYCircle == 0.0 && xcircle == 0.0 && ycircle == 0.0
    {
      // the attributes, zero when there is no attribute set
      var interval, max, min, least, padding, size, direction := 0, 0, 0, 0, 0, 0, 0;
      var gap := 0.0;
      if attrs.Some? {
        var a := attrs.value;
        interval, max, min, least := a.lineInterval, a.maxValue, a.minValue, a.leastCount;
        padding, size, direction := a.centerPadding, a.textSize, a.dialDirection;
        gap := (a.tickGapDegrees as real / 180.0) * Pi;
      }
      if min >= max {
        max := min;
        min := 0;
      }
      least := if least != 1 then 1 else least;

      var theta, compare: CompareAngle := 0.0, 0;
      if direction == LEFT {
        theta, compare := 0.0, 0;
      } else if direction == RIGHT {
        theta, compare := Pi, 180;
      } else if direction == TOP {
        theta, compare := Pi / 2.0, 90;
      } else if direction == BOTTOM {
        theta, compare := Pi * 3.0 / 2.0, 270;
      }

      lineInterval, maxValue, minValue, leastCount := interval, max, min, least;
      centerPadding, textSize, dialDirection, tickGapAngle := padding, size, direction, gap;
      currentTheta, initTheta, angleToCompare := theta, theta, compare;
      // every other field keeps its default value
      tickCount, minAngleTheta, maxAngleTheta := 0, 0.0, 0.0;
      centerX, centerY, radius := 0, 0, 0;
      delta := 0.0;
      touchState, tracking := Resting, false;
      lastTouchXCircle, lastTouchYCircle, xcircle, ycircle := 0.0, 0.0, 0.0, 0.0;
      initVelocity, currentTime, flingScheduled := 0.5, 0, false;
      measured := false;
    }

    /** The measure pass for a surface of the given size: one tick per value,
        the angle span, and the circle placed beyond the mounting edge. */
    method OnMeasure(width: int, height: int)
      requires Valid()
      modifies this`tickCount, this`maxAngleTheta, this`minAngleTheta, this`centerX, this`centerY, this`radius, this`measured
      ensures Valid() && measured
      ensures tickCount == maxValue - minValue + 1
      ensures maxAngleTheta == Span(tickCount, tickGapAngle) && minAngleTheta == 0.0
      ensures Layout() == DialCircle(dialDirection, width, height, centerPadding, old(Layout()))
    {
      // before any measure pass the window is empty, so the dial is at its base angle
      assert !measured ==> currentTheta == BaseAngle(angleToCompare);
      var count := JavaDiv(maxValue - minValue, leastCount) + 1;
      var span := (count - 1) as real * tickGapAngle;
      assert count == TickCount(minValue, maxValue, leastCount) && span == Span(count, tickGapAngle);
      // a repeated pass derives the same window
      assert measured ==> count == tickCount && span == maxAngleTheta;
      tickCount, maxAngleTheta := count, span;
      minAngleTheta := 0.0;
      PlaceCircle(width, height);
      measured := true;
    }

    /** The placement half of the measure pass: the circle's centre beyond
        the mounting edge and its radius; an unknown edge keeps the circle. */
    method PlaceCircle(width: int, height: int)
      modifies this`centerX, this`centerY, this`radius
      ensures Layout() == DialCircle(dialDirection, width, height, centerPadding, old(Layout()))
    {
      if dialDirection == LEFT {
        centerX := 0 - CenterOffset;
        radius := JavaDiv(height, 2) - centerPadding;
        centerY := JavaDiv(height, 2);
      } else if dialDirection == RIGHT {
        centerX := width + CenterOffset;
        radius := JavaDiv(height, 2) - centerPadding;
        centerY := JavaDiv(height, 2);
      } else if dialDirection == TOP {
        centerX := JavaDiv(width, 2);
        radius := JavaDiv(width, 2) - centerPadding;
        centerY := 0 - CenterOffsetVertical;
      } else if dialDirection == BOTTOM {
        centerX := JavaDiv(width, 2);
        radius := JavaDiv(width, 2) - centerPadding;
        centerY := height + CenterOffsetVertical;
      }
    }

    /** Turns the dial by `delta` if the new angle stays in the edge's window;
        otherwise the angle goes back to the committed one. An accepted turn
        also moves the drag anchor to the latest pointer position. */
    method Rotate(delta: real)
      requires ValidAngle()
      modifies this`currentTheta, this`initTheta, this`lastTouchXCircle, this`lastTouchYCircle
      ensures ValidAngle()
      ensures currentTheta == RotateAngle(angleToCompare, minAngleTheta, maxAngleTheta, old(currentTheta), delta)
      // an accepted turn moves the anchor to the pointer; a rejected one keeps it
      ensures (lastTouchXCircle, lastTouchYCircle) ==
        if InWindow(angleToCompare, minAngleTheta, maxAngleTheta, old(currentTheta) + delta)
        then (xcircle, ycircle) else (old(lastTouchXCircle), old(lastTouchYCircle))
    {
      currentTheta := currentTheta + delta;
      if angleToCompare == 180 || angleToCompare == 270 || angleToCompare == 90 {
        if currentTheta <= minAngleTheta + (angleToCompare as real * Pi / 180.0)
           && currentTheta >= (angleToCompare as real * Pi / 180.0) - maxAngleTheta
        {
          initTheta := initTheta + delta;
          lastTouchXCircle := xcircle;
          lastTouchYCircle := ycircle;
        } else {
          currentTheta := initTheta;
        }
      } else if angleToCompare == 0 {
        if currentTheta > minAngleTheta && currentTheta < maxAngleTheta {
          initTheta := initTheta + delta;
          lastTouchXCircle := xcircle;
          lastTouchYCircle := ycircle;
        } else {
          currentTheta := initTheta;
        }
      }
    }

    /** One run of the fling callback at clock reading `newTime` (ns). */
    method RunFling(newTime: int)
      requires Valid() && flingScheduled && newTime >= currentTime
      modifies this`currentTime, this`initVelocity, this`flingScheduled,
               this`currentTheta, this`initTheta, this`lastTouchXCircle, this`lastTouchYCircle
      ensures Valid()
      ensures var dt := Fling.Elapsed(old(currentTime), newTime);
        var t := Fling.Step(old(initVelocity), dt);
        && flingScheduled == t.Coast?
        && currentTime == (if t.Idle? then old(currentTime) else newTime)
        && initVelocity == (if t.Coast? then t.velocity else old(initVelocity))
        && currentTheta == (if t.Coast?
                            then RotateAngle(angleToCompare, minAngleTheta, maxAngleTheta, old(currentTheta), Fling.Turn(t, dt))
                            else old(currentTheta))
        // an accepted turn moves the drag anchor to the latest pointer point
        && (lastTouchXCircle, lastTouchYCircle) ==
           (if t.Coast? && InWindow(angleToCompare, minAngleTheta, maxAngleTheta, old(currentTheta) + Fling.Turn(t, dt))
            then (xcircle, ycircle) else (old(lastTouchXCircle), old(lastTouchYCircle)))
    {
      if Fling.Abs(initVelocity) < Fling.VelocityThreshold {
        flingScheduled := false;
        return;
      }
      var deltaSecs := Fling.Elapsed(currentTime, newTime);
      currentTime := newTime;
      var finalVelocity;
      if initVelocity > 0.0 {
        finalVelocity := initVelocity - Fling.Deceleration * deltaSecs;
      } else {
        finalVelocity := initVelocity + Fling.Deceleration * deltaSecs;
      }
      FinishFlingStep(deltaSecs, finalVelocity);
    }

    /** The second half of a fling run, once the clock has been read and the
        decelerated velocity computed: stop if the velocity would reverse,
        otherwise turn the dial, queue the next run and keep the new velocity. */
    method FinishFlingStep(deltaSecs: real, finalVelocity: real)
      requires Valid() && flingScheduled
      requires deltaSecs >= 0.0 && Fling.Abs(initVelocity) >= Fling.VelocityThreshold
      requires finalVelocity == Fling.Decelerated(initVelocity, deltaSecs)
      modifies this`initVelocity, this`flingScheduled,
               this`currentTheta, this`initTheta, this`lastTouchXCircle, this`lastTouchYCircle
      ensures Valid()
      ensures var t := Fling.Step(old(initVelocity), deltaSecs);
        && flingScheduled == t.Coast?
        && initVelocity == (if t.Coast? then t.velocity else old(initVelocity))
        && currentTheta == (if t.Coast?
                            then RotateAngle(angleToCompare, minAngleTheta, maxAngleTheta, old(currentTheta), Fling.Turn(t, deltaSecs))
                            else old(currentTheta))
        && (lastTouchXCircle, lastTouchYCircle) ==
           (if t.Coast? && InWindow(angleToCompare, minAngleTheta, maxAngleTheta, old(currentTheta) + Fling.Turn(t, deltaSecs))
            then (xcircle, ycircle) else (old(lastTouchXCircle), old(lastTouchYCircle)))
    {
      Fling.StepUnfolds(initVelocity, deltaSecs, finalVelocity);
      if Fling.Reverses(initVelocity, finalVelocity) {
        flingScheduled := false;
        return;
      }
      var turn := finalVelocity * deltaSecs;
      assert turn == Fling.Turn(Fling.Step(initVelocity, deltaSecs), deltaSecs);
      Rotate(turn);
      flingScheduled := true;
      initVelocity := finalVelocity;
    }

    /** Pointer-down: cancel any queued fling, anchor the drag where the
        pointer is and start tracking velocity; the gesture is a click so far. */
    method StartTouch(x: real, y: real)
      requires Valid()
      modifies this`flingScheduled, this`lastTouchXCircle, this`lastTouchYCircle, this`tracking, this`touchState
      ensures Valid()
      ensures !flingScheduled && touchState == Click && tracking
      ensures (lastTouchXCircle, lastTouchYCircle) == AnchorPoint(angleToCompare, centerX, centerY, x, y)
    {
      flingScheduled := false;
      SetAnchor(x, y);
      tracking := true;
      touchState := Click;
    }

    /** The anchor of a new drag: the touch in the dial's frame, by the
        comparison angle of the edge. */
    method SetAnchor(x: real, y: real)
      modifies this`lastTouchXCircle, this`lastTouchYCircle
      ensures (lastTouchXCircle, lastTouchYCircle) == AnchorPoint(angleToCompare, centerX, centerY, x, y)
    {
      if angleToCompare == 180 {
        lastTouchXCircle := centerX as real + x;
        lastTouchYCircle := centerY as real - y;
      } else if angleToCompare == 0 {
        lastTouchXCircle := x - centerX as real;
        lastTouchYCircle := centerY as real - y;
      } else if angleToCompare == 270 {
        lastTouchXCircle := x - centerX as real;
        lastTouchYCircle := centerY as real - y;
      } else if angleToCompare == 90 {
        lastTouchXCircle := x - centerX as real;
        lastTouchYCircle := centerY as real - y;
      }
    }

    /** Pointer-move: turn the dial by the change of the pointer's polar angle
        about the centre since the anchor; the gesture becomes a drag. `atan2`
        is the platform's two-argument arc tangent. */
    method DuringTouch(x: real, y: real, atan2: (real, real) -> real)
      requires ValidAngle()
      modifies this`xcircle, this`ycircle, this`delta, this`touchState,
               this`currentTheta, this`initTheta, this`lastTouchXCircle, this`lastTouchYCircle
      ensures ValidAngle() && touchState == Scroll
      ensures (xcircle, ycircle) == TouchPoint(dialDirection, centerX, centerY, x, y, (old(xcircle), old(ycircle)))
      ensures delta == DragDelta(dialDirection, atan2(old(lastTouchYCircle), old(lastTouchXCircle)),
                                 atan2(ycircle, xcircle), old(delta))
      ensures currentTheta == RotateAngle(angleToCompare, minAngleTheta, maxAngleTheta, old(currentTheta), delta)
      // an accepted turn moves the anchor to the pointer; a rejected one keeps it
      ensures (lastTouchXCircle, lastTouchYCircle) ==
        if InWindow(angleToCompare, minAngleTheta, maxAngleTheta, old(currentTheta) + delta)
        then (xcircle, ycircle) else (old(lastTouchXCircle), old(lastTouchYCircle))
    {
      MoveTouchPoint(x, y);
      var originalAngle := atan2(lastTouchYCircle, lastTouchXCircle);
      var newAngle := atan2(ycircle, xcircle);
      SetDragDelta(originalAngle, newAngle);
      Rotate(delta);
      touchState := Scroll;
      // the move is then fed to the velocity tracker, which holds no modelled state
    }

    /** The first step of a move: the pointer position in the dial's frame,
        by the edge the dial is mounted on. */
    method MoveTouchPoint(x: real, y: real)
      modifies this`xcircle, this`ycircle
      ensures (xcircle, ycircle) == TouchPoint(dialDirection, centerX, centerY, x, y, (old(xcircle), old(ycircle)))
    {
      if dialDirection == LEFT {
        xcircle := x - centerX as real;
        ycircle := centerY as real - y;
      } else if dialDirection == RIGHT {
        xcircle := centerX as real + x;
        ycircle := centerY as real - y;
      } else if dialDirection == TOP {
        xcircle := x - centerX as real;
        ycircle := centerY as real - y;
      } else if dialDirection == BOTTOM {
        xcircle := x - centerX as real;
        ycircle := centerY as real - y;
      }
    }

    /** The second step of a move: the rotation asked for by the change of
        polar angle from the anchor to the pointer. */
    method SetDragDelta(originalAngle: real, newAngle: real)
      modifies this`delta
      ensures delta == DragDelta(dialDirection, originalAngle, newAngle, old(delta))
    {
      if dialDirection == LEFT {
        delta := originalAngle - newAngle;
      } else if dialDirection == RIGHT {
        delta := newAngle - originalAngle;
      } else if dialDirection == TOP {
        delta := originalAngle - newAngle;
      } else if dialDirection == BOTTOM {
        delta := originalAngle - newAngle;
      }
    }

    /** Pointer-up handling: a drag hands the tracker's velocity, signed for
        the edge, to `EndTouch`; a click hands it zero. A move only feeds the
        tracker. `xVelocity` and `yVelocity` are what the tracker reports. */
    method ProcessTouch(action: Action, xVelocity: real, yVelocity: real, now: int) returns (handled: bool)
      requires Valid()
      requires action.Move? || action.Up? ==> tracking
      modifies this`tracking, this`currentTime, this`initVelocity, this`flingScheduled, this`touchState
      ensures Valid() && handled
      ensures !action.Up? ==> unchanged(this)
      ensures action.Up? ==> touchState == Resting && !tracking && flingScheduled && currentTime == now
      ensures action.Up? ==> initVelocity == SignedVelocity(angleToCompare,
        if old(touchState) == Scroll then TrackerVelocity(dialDirection, xVelocity, yVelocity) else 0.0)
    {
      if action == Up {
        var velocity := 0.0;
        if touchState == Scroll {
          if dialDirection == LEFT {
            velocity := -1.0 * yVelocity;
          } else if dialDirection == RIGHT {
            velocity := -1.0 * yVelocity;
          } else if dialDirection == TOP {
            velocity := -1.0 * xVelocity;
          } else if dialDirection == BOTTOM {
            velocity := -1.0 * xVelocity;
          }
        }
        EndTouch(velocity, now);
      }
      handled := true;
    }

    /** End of a gesture: drop the tracker, read the clock, sign the velocity
        for the edge, queue the fling and return to resting. */
    method EndTouch(velocity: real, now: int)
      requires Valid() && tracking
      modifies this`tracking, this`currentTime, this`initVelocity, this`flingScheduled, this`touchState
      ensures Valid()
      ensures !tracking && touchState == Resting && flingScheduled && currentTime == now
      ensures initVelocity == SignedVelocity(angleToCompare, velocity)
    {
      tracking := false;
      currentTime := now;
      if angleToCompare == 180 {
        initVelocity := velocity;
      } else if angleToCompare == 0 {
        initVelocity := -1.0 * velocity;
      } else if angleToCompare == 270 {
        initVelocity := -1.0 * velocity;
      } else if angleToCompare == 90 {
        initVelocity := velocity;
      }
      flingScheduled := true;
      touchState := Resting;
    }

    /** The touch entry point. Down starts a gesture and cancels the fling,
        move drags, up releases into a fling whose velocity is zero unless the
        gesture dragged; other actions are not handled. */
    method OnTouchEvent(event: MotionEvent, atan2: (real, real) -> real,
                        xVelocity: real, yVelocity: real, now: int) returns (handled: bool)
      requires Valid()
      requires event.action.Move? || event.action.Up? ==> touchState != Resting
      modifies this`flingScheduled, this`lastTouchXCircle, this`lastTouchYCircle, this`tracking, this`touchState,
               this`xcircle, this`ycircle, this`delta, this`currentTheta, this`initTheta,
               this`currentTime, this`initVelocity
      ensures Valid()
      ensures handled <==> !event.action.Other?
      ensures event.action.Down? ==> touchState == Click && !flingScheduled
      ensures event.action.Down? ==>
        (lastTouchXCircle, lastTouchYCircle) == AnchorPoint(angleToCompare, centerX, centerY, event.x, event.y)
      ensures event.action.Down? ==>
        && xcircle == old(xcircle) && ycircle == old(ycircle) && delta == old(delta)
        && currentTime == old(currentTime) && initVelocity == old(initVelocity)
      ensures event.action.Move? ==>
        && (xcircle, ycircle) == TouchPoint(dialDirection, centerX, centerY, event.x, event.y, (old(xcircle), old(ycircle)))
        && delta == DragDelta(dialDirection, atan2(old(lastTouchYCircle), old(lastTouchXCircle)),
                              atan2(ycircle, xcircle), old(delta))
      ensures event.action.Move? ==>
        (lastTouchXCircle, lastTouchYCircle) ==
        if InWindow(angleToCompare, minAngleTheta, maxAngleTheta, old(currentTheta) + delta)
        then (xcircle, ycircle) else (old(lastTouchXCircle), old(lastTouchYCircle))
      ensures event.action.Move? ==> touchState == Scroll && flingScheduled == old(flingScheduled)
      ensures event.action.Move? ==> currentTime == old(currentTime) && initVelocity == old(initVelocity)
      ensures event.action.Move? ==>
        currentTheta == RotateAngle(angleToCompare, minAngleTheta, maxAngleTheta, old(currentTheta), delta)
      ensures event.action.Up? ==> touchState == Resting && flingScheduled && currentTime == now
      ensures event.action.Up? ==>
        && lastTouchXCircle == old(lastTouchXCircle) && lastTouchYCircle == old(lastTouchYCircle)
        && xcircle == old(xcircle) && ycircle == old(ycircle) && delta == old(delta)
      ensures event.action.Up? ==>
        initVelocity == (if old(touchState) == Scroll then FlingVelocity(dialDirection, xVelocity, yVelocity) else 0.0)
      ensures !event.action.Move? ==> currentTheta == old(currentTheta)
      ensures event.action.Other? ==> unchanged(this)
    {
      match event.action
      case Down =>
        StartTouch(event.x, event.y);
        handled := true;
      case Move =>
        DuringTouch(event.x, event.y, atan2);
        handled := true;
      case Up =>
        handled := ProcessTouch(Up, xVelocity, yVelocity, now);
      case Other =>
        handled := false;
    }

    /** What the drawing pass decides for the tick of value `i`: its angle
        (turned the other way on the left edge), whether it is major, and
        whether its angle in whole degrees reports the value. */
    method DecideTick(i: int) returns (tick: Tick)
      ensures tick == MakeTick(dialDirection, angleToCompare, currentTheta, tickGapAngle, lineInterval, i)
    {
      var angle := i as real * tickGapAngle;
      var lineIsMajor := lineInterval != 0 && i % lineInterval == 0;
      var newTheta;
      if angleToCompare == 180 {
        newTheta := angle + currentTheta;
      } else if angleToCompare == 270 {
        newTheta := angle + currentTheta;
      } else if angleToCompare == 90 {
        newTheta := angle + currentTheta;
      } else {
        newTheta := currentTheta - angle;
      }
      var newThetaInDegree := Trunc(newTheta / Pi * 180.0);
      var notifies := false;
      if dialDirection == LEFT {
        notifies := newThetaInDegree == angleToCompare;
      } else if dialDirection == RIGHT {
        notifies := newThetaInDegree == angleToCompare || (newThetaInDegree as real) < angleToCompare as real + 0.2;
      } else if dialDirection == TOP {
        notifies := newThetaInDegree == angleToCompare || (newThetaInDegree as real) < angleToCompare as real + 0.2;
      } else if dialDirection == BOTTOM {
        notifies := newThetaInDegree == angleToCompare;
      }
      tick := Tick(i, lineIsMajor, newThetaInDegree, notifies);
    }

    /** The tick loop of the drawing pass over values from `from` while below
        `until`: one tick decision per value, in increasing order. */
    method CollectTicks(from: int, until: int) returns (ticks: seq<Tick>)
      ensures |ticks| == DrawnCount(from, until)
      ensures forall k :: 0 <= k < |ticks| ==>
        ticks[k] == MakeTick(dialDirection, angleToCompare, currentTheta, tickGapAngle, lineInterval, from + k)
    {
      ticks := [];
      var i := from;
      while i < until
        invariant from <= i <= (if until > from then until else from)
        invariant i - from == |ticks|
        invariant forall k :: 0 <= k < |ticks| ==>
          ticks[k] == MakeTick(dialDirection, angleToCompare, currentTheta, tickGapAngle, lineInterval, from + k)
      {
        var tick := DecideTick(i);
        ticks := ticks + [tick];
        i := i + 1;
      }
    }

    /** The drawing pass as written: the loop runs from `minValue` while below
        `tickCount`, so it draws one tick per value only when `minValue` is 0. */
    method DrawTicks() returns (ticks: seq<Tick>)
      ensures |ticks| == DrawnCount(minValue, tickCount)
      ensures forall k :: 0 <= k < |ticks| ==> ticks[k].value == minValue + k
      ensures forall k :: 0 <= k < |ticks| ==>
        ticks[k] == MakeTick(dialDirection, angleToCompare, currentTheta, tickGapAngle, lineInterval, minValue + k)
    {
      ticks := CollectTicks(minValue, tickCount);
    }

    /** The drawing pass with the loop bound the range calls for: after a
        measure pass it draws exactly the values minValue..maxValue. */
    method DrawAllTicks() returns (ticks: seq<Tick>)
      requires Valid() && measured
      ensures |ticks| == DrawnCount(minValue, maxValue + 1)
      ensures minValue <= maxValue ==> |ticks| == tickCount && ticks[|ticks| - 1].value == maxValue
      ensures forall k :: 0 <= k < |ticks| ==> ticks[k].value == minValue + k <= maxValue
      ensures forall k :: 0 <= k < |ticks| ==>
        ticks[k] == MakeTick(dialDirection, angleToCompare, currentTheta, tickGapAngle, lineInterval, minValue + k)
    {
      ticks := CollectTicks(minValue, minValue + tickCount);
    }
  }
}
