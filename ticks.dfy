/** The per-tick decisions of the drawing pass: where each tick sits, whether
    it is a major tick, and whether it reports the dial's value to the
    listener. The drawing itself is not modelled. */
module Ticks {
  import opened Geometry

  /** Java's `(int)` cast of a double: truncation toward zero. */
  function Trunc(x: real): (n: int)
    ensures x >= 0.0 ==> 0 <= n && n as real <= x < n as real + 1.0
    ensures x < 0.0 ==> n <= 0 && n as real - 1.0 < x <= n as real
  {
    if x >= 0.0 then x.Floor else -((-x).Floor)
  }

  lemma TruncMonotone(x: real, y: real)
    requires x <= y
    ensures Trunc(x) <= Trunc(y)
  {
  }

  /** The angle in whole degrees, as the drawing pass converts it: the degree
      value with its fraction dropped toward zero. */
  function Degrees(theta: real): (d: int)
    ensures var deg := theta * 180.0 / Pi;
      && (deg >= 0.0 ==> 0 <= d && d as real <= deg < d as real + 1.0)
      && (deg < 0.0 ==> d <= 0 && d as real - 1.0 < deg <= d as real)
  {
    Trunc(theta / Pi * 180.0)
  }

  /** The angle at which the tick of value `i` is drawn: the left edge turns
      the ticks the other way from the three other edges. */
  function TickTheta(angleToCompare: CompareAngle, currentTheta: real, tickGapAngle: real, i: int): (t: real)
    // the tick of value i sits i gaps from the dial's angle, forward on the
    // right, top and bottom edges and backward on the left edge
    ensures angleToCompare != 0 ==> t - currentTheta == i as real * tickGapAngle
    ensures angleToCompare == 0 ==> currentTheta - t == i as real * tickGapAngle
    ensures i == 0 ==> t == currentTheta
  {
    var angle := i as real * tickGapAngle;
    if angleToCompare == 180 || angleToCompare == 270 || angleToCompare == 90 then angle + currentTheta
    else currentTheta - angle
  }

  /** Whether the tick of value `i` is a major (long, labelled) tick. A zero
      interval makes the double remainder NaN, so every tick is minor. */
  predicate IsMajor(i: int, lineInterval: int): (major: bool)
    // the major ticks are exactly the multiples of a non-zero interval
    ensures major <==> lineInterval != 0 && exists k :: i == k * lineInterval
  {
    if lineInterval == 0 then false
    else
      DividesIffZeroRemainder(i, lineInterval);
      i % lineInterval == 0
  }

  /** A zero remainder means divisibility (the remainder's sign convention
      does not matter for this). */
  lemma DividesIffZeroRemainder(i: int, n: int)
    requires n != 0
    ensures (exists k :: i == k * n) <==> i % n == 0
  {
    if i % n == 0 {
      assert i == (i / n) * n;
    }
    if k :| i == k * n {
      MultipleHasZeroRemainder(k, n);
    }
  }

  lemma MultipleHasZeroRemainder(k: int, n: int)
    requires n != 0
    ensures (k * n) % n == 0
  {
    var q := (k * n) / n;
    assert (k - q) * n == (k * n) % n;
    if k != q {
      // a non-zero multiple of n is at least |n| from zero, out of the
      // remainder's range
      MultipleAtLeast(k - q, n);
    }
  }

  lemma MultipleAtLeast(m: int, n: int)
    requires m != 0
    ensures Abs(m * n) >= Abs(n)
    decreases Abs(m)
  {
    if m > 1 {
      MultipleAtLeast(m - 1, n);
      assert m * n == (m - 1) * n + n;
    } else if m < -1 {
      MultipleAtLeast(m + 1, n);
      assert m * n == (m + 1) * n - n;
    }
  }

  /** Whether a tick at `degrees` reports its value to the listener. On whole
      degrees the tolerance of the right and top edges amounts to "at or below
      the comparison angle"; the left and bottom edges need the exact angle;
      an unknown direction never reports. */
  predicate Fires(dialDirection: int, angleToCompare: CompareAngle, degrees: int): (fires: bool)
    ensures dialDirection == RIGHT || dialDirection == TOP ==> (fires <==> degrees <= angleToCompare)
    ensures dialDirection == LEFT || dialDirection == BOTTOM ==> (fires <==> degrees == angleToCompare)
    ensures !(LEFT <= dialDirection <= BOTTOM) ==> !fires
  {
    if dialDirection == LEFT || dialDirection == BOTTOM then degrees == angleToCompare
    else if dialDirection == RIGHT || dialDirection == TOP then
      degrees == angleToCompare || (degrees as real) < angleToCompare as real + 0.2
    else false
  }

  /** What the drawing pass decides for one tick. */
  datatype Tick = Tick(value: int, major: bool, degrees: int, notifies: bool)

  function MakeTick(dialDirection: int, angleToCompare: CompareAngle, currentTheta: real,
                    tickGapAngle: real, lineInterval: int, i: int): Tick
  {
    var degrees := Degrees(TickTheta(angleToCompare, currentTheta, tickGapAngle, i));
    Tick(i, IsMajor(i, lineInterval), degrees, Fires(dialDirection, angleToCompare, degrees))
  }

  /** The number of ticks a loop from `from` while below `until` visits. */
  function DrawnCount(from: int, until: int): nat {
    if until > from then until - from else 0
  }

  /** The tick loop runs its counter from `minValue` up to the tick COUNT: only
      a range starting at 0 gets one tick per value. With a positive minimum
      values at the top are skipped, with a negative one values past the
      maximum are drawn. */
  lemma TickLoopMiscounts(minValue: int, maxValue: int)
    requires minValue <= maxValue
    ensures var n := TickCount(minValue, maxValue, 1);
      (DrawnCount(minValue, n) == n <==> minValue == 0) &&
      (minValue > 0 ==> DrawnCount(minValue, n) < n) &&
      (minValue < 0 ==> DrawnCount(minValue, n) > n)
  {
  }

  /** A concrete instance: the range 5..10 has six values but one tick is drawn. */
  lemma TickLoopMiscountsExample()
    ensures TickCount(5, 10, 1) == 6 && DrawnCount(5, TickCount(5, 10, 1)) == 1
  {
  }

  /** A loop bounded by `minValue + tickCount` visits exactly the values of
      the range, one tick each. */
  lemma TickLoopIntendedCount(minValue: int, maxValue: int)
    requires minValue <= maxValue
    ensures var n := TickCount(minValue, maxValue, 1);
      DrawnCount(minValue, minValue + n) == n && minValue + n - 1 == maxValue
  {
  }

  /** On the right and top edges (ticks laid out with growing angles) the ticks
      that report form a prefix of the pass: if the tick of value j reports, so
      does every tick of a smaller value; the last report therefore comes from
      the largest value whose tick is at or below the comparison angle. */
  lemma ReportsFormPrefix(dialDirection: int, currentTheta: real, tickGapAngle: real,
                           lineInterval: int, i: int, j: int)
    requires dialDirection == RIGHT || dialDirection == TOP
    requires tickGapAngle >= 0.0 && i <= j
    ensures var a := AngleToCompare(dialDirection);
      MakeTick(dialDirection, a, currentTheta, tickGapAngle, lineInterval, j).notifies ==>
      MakeTick(dialDirection, a, currentTheta, tickGapAngle, lineInterval, i).notifies
  {
    var a := AngleToCompare(dialDirection);
    var ti := TickTheta(a, currentTheta, tickGapAngle, i);
    var tj := TickTheta(a, currentTheta, tickGapAngle, j);
    assert (j - i) as real * tickGapAngle >= 0.0;
    assert ti <= tj;
    assert ti / Pi * 180.0 <= tj / Pi * 180.0;
    TruncMonotone(ti / Pi * 180.0, tj / Pi * 180.0);
    assert Degrees(ti) <= Degrees(tj);
  }
}
