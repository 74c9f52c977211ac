# DialView — a verified model of the dial picker widget

`DialView` is an Android view that draws a dial whose centre lies just beyond
one edge of the view (left, right, top or bottom). The user turns it by
dragging, and when the finger lifts it keeps turning for a while (a fling).
As it turns, the tick whose angle matches the edge's comparison angle
reports its value to a listener.

The model covers the widget's state and arithmetic:

- `init`: the attribute repair, the forced step of 1 and the starting angle of each edge.
- The measure pass: tick count, angle span, and the circle's centre and radius.
- `rotate`: a bounded, all-or-nothing update of the angle.
- The fling callback: one step of linear deceleration.
- The touch state machine: resting, click and scroll, with the per-edge sign tables for the drag delta and the fling velocity.
- The tick loop of the drawing pass: the angle of each tick, major or minor, and whether it reports its value.

The modules follow the structure of the Java class:

- `Geometry` (geometry.dfy): configuration, layout and the per-edge tables as pure functions.
- `Rotation` (rotation.dfy): the acceptance window of `rotate` and what sequences of rotations do.
- `Fling` (fling.dfy): one fling step and what repeated steps do.
- `Ticks` (ticks.dfy): the per-tick decisions of the drawing pass.
- `Dial` (dial_view.dfy): the class `DialView`. Its fields are the widget's fields, and its methods update them in place the way the Java methods do. Each method is specified by the functions above. `Valid()` is the class invariant, and its parts are:
  - the step is 1;
  - `angleToCompare` matches the edge;
  - the window is the one the last measure pass derived;
  - `currentTheta == initTheta`;
  - the angle is at its start or inside the window;
  - a velocity tracker is held exactly while a gesture is in progress;
  - a fling is queued only while no gesture is in progress.

Numbers follow the Java code:
- Doubles and floats are exact reals, and `Math.PI` is the real 3.141592653589793.
- Java's truncating `int` division is `JavaDiv`.
- The `(int)` cast of a double is `Trunc`.
- A zero `lineInterval` makes the double remainder NaN, so every tick is minor.

The platform's inputs are parameters:
- `Math.atan2` is passed to the touch handlers.
- `System.nanoTime()` readings are the `now` and `newTime` arguments.
- The velocity tracker's x and y velocities are arguments.

Two flags stand for platform objects:
- `post`, `postDelayed` and `removeCallbacks` become the `flingScheduled` flag.
- The presence of a velocity tracker is the `tracking` flag.

A rotation that would leave the window is not clamped to the nearer bound: `rotate` rejects it and restores the previous angle (DialView.java:552, 562). The model follows the code; see `Rotation.RotateAngle`.

## Model

| member | source | states |
|---|---|---|
| `Geometry.NormaliseRange` | dialpicker/src/main/java/com/moldedbits/dialpicker/DialView.java:177-180 | An empty or inverted range [min, max] becomes [0, min]; any other range is unchanged. The result is non-empty exactly when the given range was, or when the given minimum is positive. |
| `Geometry.NormaliseMayLeaveInvertedRange` | dialpicker/src/main/java/com/moldedbits/dialpicker/DialView.java:177-180 | The repair does not guarantee min < max: (-5, -10) becomes (0, -5), and (0, 0) stays (0, 0). |
| `Geometry.Configure` | dialpicker/src/main/java/com/moldedbits/dialpicker/DialView.java:161-182 | After init the step is 1 whatever the attribute said. Without an attribute set every value is 0. With one, the range is the repaired range, the other integers are as read, and the tick gap in radians times 180 equals the degrees times π. |
| `Geometry.TickCount` | dialpicker/src/main/java/com/moldedbits/dialpicker/DialView.java:229 | With step 1 there is one tick per value: max − min + 1. |
| `Geometry.LayoutAfterInit` | dialpicker/src/main/java/com/moldedbits/dialpicker/DialView.java:229-231 | For any attributes, the configuration init produces gives tickCount = max − min + 1 and an angle span of (max − min) tick gaps. |
| `Geometry.AngleToCompare` | dialpicker/src/main/java/com/moldedbits/dialpicker/DialView.java:189-209 | Left and right compare on the horizontal axis (0 or 180 degrees), top and bottom on the vertical one (90 or 270). The value is 0 exactly for the left edge and an unknown direction. |
| `Geometry.InitialTheta` | dialpicker/src/main/java/com/moldedbits/dialpicker/DialView.java:189-209 | Every edge starts exactly at the base angle (angleToCompare · π / 180) that rotate measures against. An unknown direction starts at 0. |
| `Geometry.DialCircle` | dialpicker/src/main/java/com/moldedbits/dialpicker/DialView.java:233-265 | The centre lies 40 px beyond the mounting edge and halfway along it (integer halves), and the radius is that half less the padding. An unknown direction keeps the previous circle. |
| `Geometry.OppositeEdgesMirror` | dialpicker/src/main/java/com/moldedbits/dialpicker/DialView.java:233-265 | Left and right share the vertical centre and the radius, and their x centres sum to the width. Top and bottom mirror each other the same way about the height. |
| `Geometry.AnchorPoint` | dialpicker/src/main/java/com/moldedbits/dialpicker/DialView.java:511-523 | On pointer-down, y in the dial's frame is centreY − y. x is centreX + x for the right edge and x − centreX otherwise. |
| `Geometry.TouchPoint` | dialpicker/src/main/java/com/moldedbits/dialpicker/DialView.java:450-473 | On pointer-move the same frame is chosen by `dialDirection`. An unknown direction keeps the previous point. |
| `Geometry.AnchorMatchesTouchFrame` | dialpicker/src/main/java/com/moldedbits/dialpicker/DialView.java:450-523 | For each of the four edges, the anchor table and the move table put a touch at the same point, so the drag is measured in one frame. |
| `Geometry.DragDelta` | dialpicker/src/main/java/com/moldedbits/dialpicker/DialView.java:478-495 | The drag delta is new − original for the right edge and original − new for left, top and bottom. An unknown direction keeps the previous delta. |
| `Geometry.TrackerVelocity` | dialpicker/src/main/java/com/moldedbits/dialpicker/DialView.java:583-596 | Pointer-up reads the tracker's velocity along the mounting edge, negated: −yVel for left and right, −xVel for top and bottom, and 0 for an unknown direction. |
| `Geometry.SignedVelocity` | dialpicker/src/main/java/com/moldedbits/dialpicker/DialView.java:613-621 | endTouch keeps the magnitude of the velocity. It flips the sign for angleToCompare 0 and 270 and keeps it for 90 and 180. |
| `Geometry.FlingVelocity` | dialpicker/src/main/java/com/moldedbits/dialpicker/DialView.java:583-621 | The two sign tables composed give the net initial fling velocity: left +yVel, right −yVel, top −xVel, bottom +xVel, and 0 for an unknown direction. |
| `Rotation.InWindow` | dialpicker/src/main/java/com/moldedbits/dialpicker/DialView.java:543-556 | For right, top and bottom, an angle is accepted iff its offset from the base angle lies in [−maxAngleTheta, minAngleTheta]. For the left edge the window is open: exactly the angles strictly between minAngleTheta and maxAngleTheta, never its ends. |
| `Rotation.RotateAngle` | dialpicker/src/main/java/com/moldedbits/dialpicker/DialView.java:541-566 | Rotation is all or nothing. The new angle is θ + δ when θ + δ is in the edge's window and θ otherwise, so the result is in the window or unchanged. |
| `Rotation.RotateAllStaysInWindow` | dialpicker/src/main/java/com/moldedbits/dialpicker/DialView.java:541-566 | After any sequence of rotations the angle is its start or in the window. An angle inside the window stays inside it. |
| `Rotation.RotateRoundTrip` | dialpicker/src/main/java/com/moldedbits/dialpicker/DialView.java:541-566 | An accepted rotation by δ from inside the window, followed by one by −δ, returns to the starting angle. |
| `Rotation.UnknownEdgeNeverTurns` | dialpicker/src/main/java/com/moldedbits/dialpicker/DialView.java:478-495 | For a direction other than the four edges, the drag delta keeps its initial 0, so every drag rotates by 0 and the angle stays where it was. |
| `Rotation.LeftStartOutsideWindow` | dialpicker/src/main/java/com/moldedbits/dialpicker/DialView.java:555-563 | The left edge starts at 0, which its open window (0, maxAngleTheta) excludes. After any rotations the angle is therefore 0 or strictly inside the window. |
| `Rotation.BaseInClosedWindow` | dialpicker/src/main/java/com/moldedbits/dialpicker/DialView.java:543-546 | For right, top and bottom the base angle is the upper end of the closed window [base − span, base]. |
| `Fling.Elapsed` | dialpicker/src/main/java/com/moldedbits/dialpicker/DialView.java:122-124 | Elapsed seconds between two clock readings in nanoseconds. This is non-negative for a clock that does not go back. |
| `Fling.Decelerated` | dialpicker/src/main/java/com/moldedbits/dialpicker/DialView.java:127-131 | The velocity changes by exactly 10 · \|dt\|. For dt ≥ 0 it moves against the direction of motion: a positive velocity does not grow, and a non-positive one does not fall. |
| `Fling.Step` | dialpicker/src/main/java/com/moldedbits/dialpicker/DialView.java:119-134 | One callback run: it does nothing iff \|v\| < 0.05. It stops iff the speed lost (10 · dt) exceeds \|v\|. Otherwise it coasts with the same sign and \|v'\| = \|v\| − 10 · dt. |
| `Fling.StepUnfolds` | dialpicker/src/main/java/com/moldedbits/dialpicker/DialView.java:126-134 | Above the threshold, the step is Stop exactly when v · v' < 0 for the decelerated v', and coasting at v' otherwise. |
| `Fling.Settle` | dialpicker/src/main/java/com/moldedbits/dialpicker/DialView.java:116-139 | Over any run of callbacks the fling velocity keeps its sign and its speed never grows. |
| `Fling.CoastingTime` | dialpicker/src/main/java/com/moldedbits/dialpicker/DialView.java:116-139 | While the fling coasts, its speed falls by exactly 10 per second of elapsed time, so the coasting time is at most \|v\| / 10. |
| `Fling.FlingFromTwoSettlesQuickly` | dialpicker/src/main/java/com/moldedbits/dialpicker/DialView.java:127-134 | A fling released at 2 rad/s coasts for at most 0.2 s in total. |
| `Ticks.Trunc` | dialpicker/src/main/java/com/moldedbits/dialpicker/DialView.java:318 | The `(int)` cast truncates toward zero: the result is the integer between 0 and x that lies within 1 of x. |
| `Ticks.Degrees` | dialpicker/src/main/java/com/moldedbits/dialpicker/DialView.java:318 | The tick's angle in whole degrees is the degree value with its fraction dropped toward zero. |
| `Ticks.TickTheta` | dialpicker/src/main/java/com/moldedbits/dialpicker/DialView.java:292-301 | The tick of value i sits i gaps from the dial's angle: forward on the right, top and bottom edges, backward on the left. Tick 0 sits at the dial's angle. |
| `Ticks.IsMajor` | dialpicker/src/main/java/com/moldedbits/dialpicker/DialView.java:286 | A tick is major exactly when the interval is non-zero and divides its value. A zero interval gives only minor ticks. |
| `Ticks.TruncMonotone` | dialpicker/src/main/java/com/moldedbits/dialpicker/DialView.java:318 | The cast to whole degrees preserves order. |
| `Ticks.Fires` | dialpicker/src/main/java/com/moldedbits/dialpicker/DialView.java:321-356 | On whole degrees, right and top report iff deg ≤ angleToCompare, while left and bottom report iff deg == angleToCompare. An unknown direction never reports. |
| `Ticks.ReportsFormPrefix` | dialpicker/src/main/java/com/moldedbits/dialpicker/DialView.java:292-356 | For right and top with a non-negative gap, if the tick of value j reports, so does every tick of a smaller value. |
| `Ticks.TickLoopMiscounts` | dialpicker/src/main/java/com/moldedbits/dialpicker/DialView.java:282 | The loop bound as written gives one tick per value iff minValue == 0. It draws fewer ticks when minValue > 0 and more when minValue < 0. |
| `Ticks.TickLoopMiscountsExample` | dialpicker/src/main/java/com/moldedbits/dialpicker/DialView.java:282 | The range 5..10 has 6 values, but the loop as written draws 1 tick. |
| `Ticks.TickLoopIntendedCount` | dialpicker/src/main/java/com/moldedbits/dialpicker/DialView.java:282 | A loop bounded by minValue + tickCount visits exactly the tickCount values, and the last one is maxValue. |
| `Dial.DialView.constructor` | dialpicker/src/main/java/com/moldedbits/dialpicker/DialView.java:146-216 | init establishes the invariant. The configuration is `Configure(attrs)`, both angles are the edge's starting angle, the view is resting, no fling is queued, and the fling velocity is 0.5. Every other field keeps Java's default of zero: the drag delta, the circle's centre and radius, the anchor, the touch point and the clock reading. |
| `Dial.DialView.OnMeasure` | dialpicker/src/main/java/com/moldedbits/dialpicker/DialView.java:229-265 | The invariant is kept. tickCount is max − min + 1, the window is [0, (tickCount − 1) gaps] and the circle is `DialCircle`. A repeated pass therefore derives the same window. |
| `Dial.DialView.PlaceCircle` | dialpicker/src/main/java/com/moldedbits/dialpicker/DialView.java:233-265 | The switch on the edge sets centre and radius to `DialCircle`. |
| `Dial.DialView.Rotate` | dialpicker/src/main/java/com/moldedbits/dialpicker/DialView.java:541-566 | currentTheta becomes `RotateAngle` of the old angle, and currentTheta == initTheta and the window invariant are kept. An accepted rotation moves the anchor to the latest pointer point; a rejected one leaves it. |
| `Dial.DialView.RunFling` | dialpicker/src/main/java/com/moldedbits/dialpicker/DialView.java:116-139 | One run of the queued callback, at a clock reading, follows `Fling.Step`. It re-posts itself iff the step coasts, reads the clock unless idle, and stores the new velocity and rotates by v' · dt only when coasting. The drag anchor moves to the latest pointer point exactly when that rotation is accepted. |
| `Dial.DialView.FinishFlingStep` | dialpicker/src/main/java/com/moldedbits/dialpicker/DialView.java:126-137 | Past the threshold: it stops without rotating on a sign flip. Otherwise it rotates by v' · dt, re-posts and keeps v', and the anchor moves iff the rotation is accepted. |
| `Dial.DialView.StartTouch` | dialpicker/src/main/java/com/moldedbits/dialpicker/DialView.java:507-535 | Pointer-down cancels the fling, takes a tracker, enters CLICK and anchors the drag at `AnchorPoint`. |
| `Dial.DialView.SetAnchor` | dialpicker/src/main/java/com/moldedbits/dialpicker/DialView.java:511-523 | The branches on angleToCompare compute `AnchorPoint`. |
| `Dial.DialView.DuringTouch` | dialpicker/src/main/java/com/moldedbits/dialpicker/DialView.java:446-500 | Pointer-move: the point is `TouchPoint` and the delta is `DragDelta` of the two atan2 angles. The angle becomes `RotateAngle` by that delta, and the anchor moves iff the rotation was accepted. The state becomes SCROLL and the angle invariant is kept. |
| `Dial.DialView.MoveTouchPoint` | dialpicker/src/main/java/com/moldedbits/dialpicker/DialView.java:450-473 | The switch on the edge computes `TouchPoint`. |
| `Dial.DialView.SetDragDelta` | dialpicker/src/main/java/com/moldedbits/dialpicker/DialView.java:478-495 | The switch on the edge computes `DragDelta`. |
| `Dial.DialView.ProcessTouch` | dialpicker/src/main/java/com/moldedbits/dialpicker/DialView.java:573-606 | It always returns true. Anything but pointer-up changes no modelled state. Pointer-up ends the gesture in RESTING with the fling posted, and the velocity is the edge-signed tracker velocity after a drag and 0 after a click. |
| `Dial.DialView.EndTouch` | dialpicker/src/main/java/com/moldedbits/dialpicker/DialView.java:608-627 | It drops the tracker, reads the clock, stores `SignedVelocity`, posts the fling and resets to RESTING. |
| `Dial.DialView.OnTouchEvent` | dialpicker/src/main/java/com/moldedbits/dialpicker/DialView.java:419-444 | It is handled iff the action is down, move or up, and the invariant is kept. Down gives CLICK with no fling queued and the anchor at `AnchorPoint`. Move gives SCROLL, the point `TouchPoint`, the delta `DragDelta` of the atan2 angles, the rotation, the anchor moved iff the rotation was accepted, and an unchanged fling flag. For each action, every field it may change but does not is stated unchanged. Up gives RESTING with the fling posted at `FlingVelocity` after a drag and 0 after a click. Only a move turns the dial, and other actions change nothing. |
| `Dial.DialView.DecideTick` | dialpicker/src/main/java/com/moldedbits/dialpicker/DialView.java:283-356 | One iteration of the tick loop yields `MakeTick`: the angle turned by i gaps (the other way on the left), major iff lineInterval divides i, and the report decision of `Fires`. |
| `Dial.DialView.CollectTicks` | dialpicker/src/main/java/com/moldedbits/dialpicker/DialView.java:282-357 | The loop from `from` while below `until` yields one tick per value, in increasing order. |
| `Dial.DialView.DrawTicks` | dialpicker/src/main/java/com/moldedbits/dialpicker/DialView.java:282 | The loop as written draws `DrawnCount(minValue, tickCount)` ticks, of values minValue, minValue + 1, … |
| `Dial.DialView.DrawAllTicks` | dialpicker/src/main/java/com/moldedbits/dialpicker/DialView.java:282 | With the corrected bound, after a measure pass exactly the values minValue..maxValue are drawn: tickCount ticks, the last of value maxValue. |

## Left out

- Drawing is not modelled. That covers the circle, the lines, the text placement in `addingTextValuesToDial`, paints, gradients, colours (`startColor`, `endColor`) and `DecimalFormat`. The listener call becomes the `notifies` flag of a tick; its null check and its string argument are not modelled.
- Floating point is not modelled: doubles and floats are exact reals. This covers:
  - the `(float)` casts of the decelerated velocity;
  - the float constant 0.05f;
  - float storage of the touch points.
- `Math.atan2` is a parameter and is not defined here.
- 32-bit overflow of the `int` layout arithmetic and of the `long` clock difference is not modelled.
- The saturation of the `(int)` cast for angles beyond the `int` range is not modelled.
- The velocity tracker's internals (`obtain`, `addMovement`, `computeCurrentVelocity`, `recycle`) are not modelled. Only its presence is, as `tracking`, and the velocities it reports are inputs.
- The scheduler's timing is not modelled. The 1000/60 ms delay and the repeated running of the posted callback are outside the model; `RunFling` models one run.
- `Dial.DialView.RunFling` requires the new clock reading to be no earlier than the stored one, as a monotonic clock guarantees. It also requires the fling to be queued, since the platform runs only a posted callback.
- `Dial.DialView.OnTouchEvent` requires a gesture in progress for move and up. Without a preceding down the Java code dereferences a null velocity tracker and throws. That failure is not modelled.
- `Dial.DialView.ProcessTouch` requires a gesture in progress for move and up, for the same reason.
- `Dial.DialView.Rotate` and `Dial.DialView.DuringTouch` state only the invariant on the angles, not the whole `Valid()`. `Rotate` modifies no field the other parts read. `DuringTouch` sets `touchState` to SCROLL, which `ValidGesture` reads; `OnTouchEvent` keeps `Valid()` because it requires a gesture in progress for a move, so the tracker is held and no fling is queued.
- `invalidate`, `requestDisallowInterceptTouchEvent`, Timber and `Logger` have no effect on the modelled state.
- Attribute parsing through `TypedArray` is not modelled. The attributes arrive already read, as `Attributes`.
- app/src/main/java/com/moldedbits/dialpickersample/MainActivity.java is not part of this model. It only hosts the view.
- In the Java file a stray `}` at line 411 closes the class before the touch methods. Those methods are modelled as members of the class.

## Findings

| source | as written | input that shows it | evidently intended | confidence | as-written member | corrected member |
|---|---|---|---|---|---|---|
| dialpicker/src/main/java/com/moldedbits/dialpicker/DialView.java:282 | The tick loop runs `i` from `minValue` while `i < tickCount`. This compares a value with a count. | minValue 5, maxValue 10: tickCount is 6, but one tick (value 5) is drawn. minValue −3, maxValue 2: tickCount is 6, but 9 ticks are drawn, up to value 5. | One tick for each value minValue..maxValue, i.e. `i < minValue + tickCount`. | not executed | `Dial.DialView.DrawTicks`, `Ticks.TickLoopMiscounts`, `Ticks.TickLoopMiscountsExample` | `Dial.DialView.DrawAllTicks`, `Ticks.TickLoopIntendedCount` |
