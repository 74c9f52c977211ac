/** Configuration and orientation of a DialView: the attribute normalisation
    done once by `init`, the layout derived on every measure pass, and the
    per-edge tables (anchor frame, drag sign, fling-velocity sign) that the
    touch handlers consult. */
module Geometry {

  /** Math.PI, as the exact real written by the double literal the platform uses. */
  const Pi: real := 3.141592653589793

  /** Values of the `dialDirection` attribute. Any other value configures a
      dial that neither lays itself out nor reacts to drags. */
  const LEFT := 1
  const RIGHT := 2
  const TOP := 3
  const BOTTOM := 4

  /** How far (px) beyond the left or right edge the centre of the dial lies. */
  const CenterOffset := 40

  /** How far (px) beyond the top or bottom edge the centre of the dial lies. */
  const CenterOffsetVertical := 40

  /** The values `angleToCompare` takes: the comparison angle, in degrees, of
      the four edges (0 is also its value before any edge is chosen). */
  type CompareAngle = a: int | a == 0 || a == 90 || a == 180 || a == 270

  datatype Option<T> = None | Some(value: T)

  /** The integer attributes read from the layout (colours are not modelled). */
  datatype Attributes = Attributes(
    lineInterval: int,
    maxValue: int,
    minValue: int,
    leastCount: int,
    centerPadding: int,
    textSize: int,
    dialDirection: int,
    tickGapDegrees: int)

  /** The configuration fields of a dial once `init` has run. */
  datatype Config = Config(
    lineInterval: int,
    maxValue: int,
    minValue: int,
    leastCount: int,
    centerPadding: int,
    textSize: int,
    dialDirection: int,
    tickGapAngle: real)

  /** Java's `int` division, which truncates toward zero. */
  function JavaDiv(a: int, b: int): int
    requires b != 0
  {
    var q := Abs(a) / Abs(b);
    if (a >= 0) == (b >= 0) then q else -q
  }

  function Abs(n: int): nat {
    if n < 0 then -n else n
  }

  /** The repair `init` applies to the value range: an empty or inverted range
      [minValue, maxValue] becomes [0, minValue]. */
  function NormaliseRange(minValue: int, maxValue: int): (r: (int, int))
    ensures minValue < maxValue ==> r == (minValue, maxValue)
    ensures minValue >= maxValue ==> r.0 == 0 && r.1 == minValue
    // the repaired range is non-empty exactly when the given one was, or when
    // the given minimum is positive
    ensures r.0 < r.1 <==> minValue < maxValue || minValue > 0
  {
    if minValue >= maxValue then (0, minValue) else (minValue, maxValue)
  }

  /** A non-positive minimum with an inverted range stays inverted. */
  lemma NormaliseMayLeaveInvertedRange()
    ensures NormaliseRange(-5, -10) == (0, -5)
    ensures NormaliseRange(0, 0) == (0, 0)
  {
  }

  /** The configuration produced by `init`: the attributes as read (all zero
      when the view is created without an attribute set), the range repaired,
      the step forced to 1 and the tick gap converted from degrees to radians. */
  function Configure(attrs: Option<Attributes>): (c: Config)
    ensures c.leastCount == 1
    ensures attrs.None? ==>
      c.lineInterval == 0 && c.minValue == 0 && c.maxValue == 0 && c.centerPadding == 0 &&
      c.textSize == 0 && c.dialDirection == 0 && c.tickGapAngle == 0.0
    ensures attrs.Some? ==>
      (c.minValue, c.maxValue) == NormaliseRange(attrs.value.minValue, attrs.value.maxValue) &&
      c.dialDirection == attrs.value.dialDirection &&
      c.lineInterval == attrs.value.lineInterval &&
      c.centerPadding == attrs.value.centerPadding &&
      c.textSize == attrs.value.textSize &&
      c.tickGapAngle * 180.0 == attrs.value.tickGapDegrees as real * Pi
  {
    match attrs
    case None => Config(0, 0, 0, 1, 0, 0, 0, 0.0)
    case Some(a) =>
      var range := NormaliseRange(a.minValue, a.maxValue);
      Config(a.lineInterval, range.1, range.0, 1, a.centerPadding, a.textSize,
             a.dialDirection, (a.tickGapDegrees as real / 180.0) * Pi)
  }

  /** The number of ticks the measure pass derives from the range and step. */
  function TickCount(minValue: int, maxValue: int, leastCount: int): (n: int)
    requires leastCount != 0
    ensures leastCount == 1 ==> n == maxValue - minValue + 1
  {
    JavaDiv(maxValue - minValue, leastCount) + 1
  }

  /** The angle the dial can turn through: one tick gap per step. */
  function Span(tickCount: int, tickGapAngle: real): real {
    (tickCount - 1) as real * tickGapAngle
  }

  /** With the step forced to 1 by `init`, the measure pass yields one tick per
      value of the range and an angle span of one gap per value step. */
  lemma LayoutAfterInit(attrs: Option<Attributes>)
    ensures var c := Configure(attrs);
      var n := TickCount(c.minValue, c.maxValue, c.leastCount);
      n == c.maxValue - c.minValue + 1 &&
      Span(n, c.tickGapAngle) == (c.maxValue - c.minValue) as real * c.tickGapAngle
  {
  }

  /** `angleToCompare` as `init` sets it for each edge. */
  function AngleToCompare(dialDirection: int): (a: CompareAngle)
    // the left and right edges compare on the horizontal axis, top and bottom
    // on the vertical one
    ensures dialDirection == LEFT || dialDirection == RIGHT ==> a % 180 == 0
    ensures dialDirection == TOP || dialDirection == BOTTOM ==> a % 180 == 90
    // an unknown direction leaves the value it has before any edge is chosen,
    // which is also the left edge's
    ensures a == 0 <==> !(RIGHT <= dialDirection <= BOTTOM)
  {
    if dialDirection == LEFT then 0
    else if dialDirection == RIGHT then 180
    else if dialDirection == TOP then 90
    else if dialDirection == BOTTOM then 270
    else 0
  }

  /** The edge's base angle in radians, as `rotate` computes it. */
  function BaseAngle(angleToCompare: CompareAngle): real {
    angleToCompare as real * Pi / 180.0
  }

  /** The starting rotation `init` gives `currentTheta` and `initTheta`. */
  function InitialTheta(dialDirection: int): (theta: real)
    // every edge starts exactly at the base angle `rotate` measures against
    ensures theta == BaseAngle(AngleToCompare(dialDirection))
    ensures dialDirection != RIGHT && dialDirection != TOP && dialDirection != BOTTOM ==> theta == 0.0
  {
    if dialDirection == LEFT then 0.0
    else if dialDirection == RIGHT then Pi
    else if dialDirection == TOP then Pi / 2.0
    else if dialDirection == BOTTOM then Pi * 3.0 / 2.0
    else 0.0
  }

  /** Centre and radius of the dial's circle, in pixels. */
  datatype Circle = Circle(centerX: int, centerY: int, radius: int)

  /** The circle the measure pass places for a drawing surface of the given
      size; for an unknown direction the previous circle is kept. */
  function DialCircle(dialDirection: int, width: int, height: int, centerPadding: int, previous: Circle): (c: Circle)
    // the centre lies CenterOffset beyond the mounting edge ...
    ensures dialDirection == LEFT ==> c.centerX == -CenterOffset
    ensures dialDirection == RIGHT ==> c.centerX - width == CenterOffset
    ensures dialDirection == TOP ==> c.centerY == -CenterOffsetVertical
    ensures dialDirection == BOTTOM ==> c.centerY - height == CenterOffsetVertical
    // ... halfway along it, and the radius is half that edge less the padding
    ensures dialDirection == LEFT || dialDirection == RIGHT ==>
      c.centerY == JavaDiv(height, 2) && c.radius + centerPadding == c.centerY
    ensures dialDirection == TOP || dialDirection == BOTTOM ==>
      c.centerX == JavaDiv(width, 2) && c.radius + centerPadding == c.centerX
    ensures !(LEFT <= dialDirection <= BOTTOM) ==> c == previous
  {
    if dialDirection == LEFT then
      Circle(0 - CenterOffset, JavaDiv(height, 2), JavaDiv(height, 2) - centerPadding)
    else if dialDirection == RIGHT then
      Circle(width + CenterOffset, JavaDiv(height, 2), JavaDiv(height, 2) - centerPadding)
    else if dialDirection == TOP then
      Circle(JavaDiv(width, 2), 0 - CenterOffsetVertical, JavaDiv(width, 2) - centerPadding)
    else if dialDirection == BOTTOM then
      Circle(JavaDiv(width, 2), height + CenterOffsetVertical, JavaDiv(width, 2) - centerPadding)
    else previous
  }

  /** Opposite edges are mirror images: left and right share the vertical
      position and radius and their centres are symmetric about the middle of
      the width; top and bottom likewise about the middle of the height. */
  lemma OppositeEdgesMirror(width: int, height: int, centerPadding: int, previous: Circle)
    ensures var l := DialCircle(LEFT, width, height, centerPadding, previous);
      var r := DialCircle(RIGHT, width, height, centerPadding, previous);
      l.centerY == r.centerY && l.radius == r.radius && l.centerX + r.centerX == width
    ensures var t := DialCircle(TOP, width, height, centerPadding, previous);
      var b := DialCircle(BOTTOM, width, height, centerPadding, previous);
      t.centerX == b.centerX && t.radius == b.radius && t.centerY + b.centerY == height
  {
  }

  /** Where `startTouch` puts a touch at (x, y) in the dial's frame; it picks
      the formula by `angleToCompare`. */
  function AnchorPoint(angleToCompare: CompareAngle, centerX: int, centerY: int, x: real, y: real): (p: (real, real))
    ensures p.1 == centerY as real - y
    ensures angleToCompare == 180 ==> p.0 == centerX as real + x
    ensures angleToCompare != 180 ==> p.0 == x - centerX as real
  {
    if angleToCompare == 180 then (centerX as real + x, centerY as real - y)
    else (x - centerX as real, centerY as real - y)
  }

  /** Where `duringTouch` puts a touch at (x, y) in the dial's frame; it picks
      the formula by `dialDirection` and keeps the previous point otherwise. */
  function TouchPoint(dialDirection: int, centerX: int, centerY: int, x: real, y: real, previous: (real, real)): (p: (real, real))
    ensures !(LEFT <= dialDirection <= BOTTOM) ==> p == previous
  {
    if dialDirection == RIGHT then (centerX as real + x, centerY as real - y)
    else if dialDirection == LEFT || dialDirection == TOP || dialDirection == BOTTOM then
      (x - centerX as real, centerY as real - y)
    else previous
  }

  /** The two frame tables agree: for each of the four edges a move measures
      against an anchor taken in the same frame as the point it reaches. */
  lemma AnchorMatchesTouchFrame(dialDirection: int, centerX: int, centerY: int, x: real, y: real, previous: (real, real))
    requires LEFT <= dialDirection <= BOTTOM
    ensures AnchorPoint(AngleToCompare(dialDirection), centerX, centerY, x, y)
         == TouchPoint(dialDirection, centerX, centerY, x, y, previous)
  {
  }

  /** The rotation `duringTouch` asks for when the pointer's polar angle moves
      from `original` to `current`; for an unknown direction `delta` keeps its
      previous value. */
  function DragDelta(dialDirection: int, original: real, current: real, previous: real): (d: real)
    // the right edge turns the opposite way to the other three
    ensures dialDirection == RIGHT ==> d == current - original
    ensures dialDirection == LEFT || dialDirection == TOP || dialDirection == BOTTOM ==> d + current == original
    ensures !(LEFT <= dialDirection <= BOTTOM) ==> d == previous
  {
    if dialDirection == LEFT then original - current
    else if dialDirection == RIGHT then current - original
    else if dialDirection == TOP then original - current
    else if dialDirection == BOTTOM then original - current
    else previous
  }

  /** The velocity `processTouch` reads from the tracker at pointer-up: the
      component along the mounting edge, negated. */
  function TrackerVelocity(dialDirection: int, xVelocity: real, yVelocity: real): (v: real)
    ensures dialDirection == LEFT || dialDirection == RIGHT ==> v + yVelocity == 0.0
    ensures dialDirection == TOP || dialDirection == BOTTOM ==> v + xVelocity == 0.0
    ensures !(LEFT <= dialDirection <= BOTTOM) ==> v == 0.0
  {
    if dialDirection == LEFT || dialDirection == RIGHT then -1.0 * yVelocity
    else if dialDirection == TOP || dialDirection == BOTTOM then -1.0 * xVelocity
    else 0.0
  }

  /** The sign `endTouch` applies before the fling starts: the left and
      bottom edges flip the velocity, the right and top edges keep it. */
  function SignedVelocity(angleToCompare: CompareAngle, velocity: real): (v: real)
    ensures v == velocity || v == -velocity
    ensures angleToCompare == 0 || angleToCompare == 270 ==> v + velocity == 0.0
    ensures angleToCompare == 90 || angleToCompare == 180 ==> v == velocity
  {
    if angleToCompare == 180 then velocity
    else if angleToCompare == 0 then -1.0 * velocity
    else if angleToCompare == 270 then -1.0 * velocity
    else velocity
  }

  /** The initial fling velocity that pointer-up hands to the fling, after both
      sign tables: it follows the pointer's motion along the mounting edge. */
  function FlingVelocity(dialDirection: int, xVelocity: real, yVelocity: real): (v: real)
    ensures dialDirection == LEFT ==> v == yVelocity
    ensures dialDirection == RIGHT ==> v == -yVelocity
    ensures dialDirection == TOP ==> v == -xVelocity
    ensures dialDirection == BOTTOM ==> v == xVelocity
    ensures !(LEFT <= dialDirection <= BOTTOM) ==> v == 0.0
  {
    SignedVelocity(AngleToCompare(dialDirection), TrackerVelocity(dialDirection, xVelocity, yVelocity))
  }
}
