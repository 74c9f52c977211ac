/** The bounded rotation of the dial: the window of angles `rotate` accepts for
    each edge, and what a single rotation and a sequence of them do. */
module Rotation {
  import opened Geometry

  /** Whether `rotate` accepts `theta` as the dial's new angle. The left edge
      (angleToCompare 0) uses the open window (minAngleTheta, maxAngleTheta);
      the other edges use the closed window that ends at their base angle. */
  predicate InWindow(angleToCompare: CompareAngle, minAngleTheta: real, maxAngleTheta: real, theta: real): (w: bool)
    // measured from the base angle, the closed window reaches maxAngleTheta
    // back and minAngleTheta forward
    ensures angleToCompare != 0 ==>
      (w <==> -maxAngleTheta <= theta - BaseAngle(angleToCompare) <= minAngleTheta)
    // the left edge accepts exactly the angles strictly inside its open window
    ensures angleToCompare == 0 ==> (w <==> minAngleTheta < theta < maxAngleTheta)
  {
    if angleToCompare == 180 || angleToCompare == 270 || angleToCompare == 90 then
      BaseAngle(angleToCompare) - maxAngleTheta <= theta <= minAngleTheta + BaseAngle(angleToCompare)
    else
      minAngleTheta < theta < maxAngleTheta
  }

  /** The angle after `rotate(delta)`: all or nothing. A tentative angle outside
      the window is not saturated at the nearer bound; the old angle comes back. */
  function RotateAngle(angleToCompare: CompareAngle, minAngleTheta: real, maxAngleTheta: real, theta: real, delta: real): (r: real)
    ensures r == theta + delta || r == theta
    ensures InWindow(angleToCompare, minAngleTheta, maxAngleTheta, theta + delta) ==> r == theta + delta
    ensures !InWindow(angleToCompare, minAngleTheta, maxAngleTheta, theta + delta) ==> r == theta
    // the result is in the window unless the dial stayed where it was
    ensures r == theta || InWindow(angleToCompare, minAngleTheta, maxAngleTheta, r)
  {
    var t := theta + delta;
    if InWindow(angleToCompare, minAngleTheta, maxAngleTheta, t) then t else theta
  }

  /** The angle after rotating by each delta in turn. */
  function RotateAll(angleToCompare: CompareAngle, minAngleTheta: real, maxAngleTheta: real, theta: real, deltas: seq<real>): real
    decreases |deltas|
  {
    if deltas == [] then theta
    else RotateAll(angleToCompare, minAngleTheta, maxAngleTheta,
                   RotateAngle(angleToCompare, minAngleTheta, maxAngleTheta, theta, deltas[0]), deltas[1..])
  }

  /** After any sequence of rotations the dial is either still at its starting
      angle or inside the window; in particular an angle inside the window
      stays inside it. */
  lemma {:induction false} RotateAllStaysInWindow(angleToCompare: CompareAngle, minAngleTheta: real, maxAngleTheta: real, theta: real, deltas: seq<real>)
    ensures var r := RotateAll(angleToCompare, minAngleTheta, maxAngleTheta, theta, deltas);
      r == theta || InWindow(angleToCompare, minAngleTheta, maxAngleTheta, r)
    ensures InWindow(angleToCompare, minAngleTheta, maxAngleTheta, theta) ==>
      InWindow(angleToCompare, minAngleTheta, maxAngleTheta, RotateAll(angleToCompare, minAngleTheta, maxAngleTheta, theta, deltas))
    decreases |deltas|
  {
    if deltas != [] {
      var next := RotateAngle(angleToCompare, minAngleTheta, maxAngleTheta, theta, deltas[0]);
      RotateAllStaysInWindow(angleToCompare, minAngleTheta, maxAngleTheta, next, deltas[1..]);
    }
  }

  /** Rotating by delta and then by -delta, from an angle inside the window
      with the first rotation accepted, returns to the original angle. */
  lemma RotateRoundTrip(angleToCompare: CompareAngle, minAngleTheta: real, maxAngleTheta: real, theta: real, delta: real)
    requires InWindow(angleToCompare, minAngleTheta, maxAngleTheta, theta)
    requires InWindow(angleToCompare, minAngleTheta, maxAngleTheta, theta + delta)
    ensures RotateAngle(angleToCompare, minAngleTheta, maxAngleTheta,
              RotateAngle(angleToCompare, minAngleTheta, maxAngleTheta, theta, delta), -delta) == theta
  {
  }

  /** The left edge starts at angle 0, which its open window excludes: once the
      dial has turned it can never be rotated back to exactly 0. */
  lemma LeftStartOutsideWindow(maxAngleTheta: real, deltas: seq<real>)
    ensures !InWindow(0, 0.0, maxAngleTheta, 0.0)
    ensures RotateAll(0, 0.0, maxAngleTheta, 0.0, deltas) == 0.0 ||
            0.0 < RotateAll(0, 0.0, maxAngleTheta, 0.0, deltas) < maxAngleTheta
  {
    RotateAllStaysInWindow(0, 0.0, maxAngleTheta, 0.0, deltas);
  }

  /** For the right, top and bottom edges the base angle is the window's upper
      end, so the starting angle already lies in a window of non-negative span. */
  lemma BaseInClosedWindow(angleToCompare: CompareAngle, maxAngleTheta: real)
    requires angleToCompare != 0 && maxAngleTheta >= 0.0
    ensures InWindow(angleToCompare, 0.0, maxAngleTheta, BaseAngle(angleToCompare))
  {
  }

  /** A dial on an unknown edge never turns: its drag delta keeps the value it
      had, so from the initial 0 every drag rotates by 0. */
  lemma UnknownEdgeNeverTurns(dialDirection: int, angleToCompare: CompareAngle, minAngleTheta: real,
                              maxAngleTheta: real, theta: real, original: real, current: real)
    requires !(LEFT <= dialDirection <= BOTTOM)
    ensures DragDelta(dialDirection, original, current, 0.0) == 0.0
    ensures RotateAngle(angleToCompare, minAngleTheta, maxAngleTheta, theta,
                        DragDelta(dialDirection, original, current, 0.0)) == theta
  {
  }
}
