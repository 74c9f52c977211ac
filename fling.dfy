/** The fling: after pointer-up the dial keeps turning with a velocity that
    decreases linearly with time until it would reverse or falls below a
    threshold. One run of the scheduled callback is `Step`. */
module Fling {

  /** Speeds (rad/s) below this end the fling. */
  const VelocityThreshold: real := 0.05

  /** Linear deceleration of the dial, in rad/s per second. */
  const Deceleration: real := 10.0

  /** Nanoseconds per second, to turn clock readings into elapsed seconds. */
  const NanosPerSecond: real := 1000000000.0

  /** Seconds between two clock readings in nanoseconds. */
  function Elapsed(from: int, to: int): (dt: real)
    ensures from <= to ==> dt >= 0.0
  {
    (to - from) as real / NanosPerSecond
  }

  function Abs(x: real): real {
    if x < 0.0 then -x else x
  }

  /** What one run of the fling callback does. */
  datatype FlingTick =
    | Idle                  // too slow: return without touching the clock
    | Stop                  // deceleration would reverse the dial: return
    | Coast(velocity: real) // rotate by velocity * dt and schedule the next run

  /** The velocity decelerated toward zero over `dt` seconds. */
  function Decelerated(v: real, dt: real): (f: real)
    // it changes by exactly Deceleration per second ...
    ensures Abs(f - v) == Deceleration * Abs(dt)
    // ... against the direction of motion (a resting dial counts as moving
    // backwards)
    ensures dt >= 0.0 && v > 0.0 ==> f <= v
    ensures dt >= 0.0 && v <= 0.0 ==> f >= v
  {
    if v > 0.0 then v - Deceleration * dt else v + Deceleration * dt
  }

  /** Whether two velocities point in opposite directions. */
  predicate Reverses(v: real, f: real) {
    v * f < 0.0
  }

  /** One run of the fling callback with velocity `v`, `dt` seconds after the
      previous clock reading. */
  function Step(v: real, dt: real): (t: FlingTick)
    requires dt >= 0.0
    ensures t.Idle? <==> Abs(v) < VelocityThreshold
    // it stops exactly when the speed lost over dt exceeds the speed there is
    ensures t.Stop? <==> Abs(v) >= VelocityThreshold && Deceleration * dt > Abs(v)
    // a coasting step keeps the sign and loses Deceleration * dt of speed
    ensures t.Coast? ==> (v > 0.0 ==> 0.0 <= t.velocity <= v) && (v < 0.0 ==> v <= t.velocity <= 0.0)
    ensures t.Coast? ==> Abs(t.velocity) == Abs(v) - Deceleration * dt
  {
    if Abs(v) < VelocityThreshold then Idle
    else
      var f := Decelerated(v, dt);
      assert v > 0.0 ==> (Reverses(v, f) <==> f < 0.0);
      assert v < 0.0 ==> (Reverses(v, f) <==> f > 0.0);
      if Reverses(v, f) then Stop else Coast(f)
  }

  /** The angle a coasting run turns the dial through. */
  function Turn(t: FlingTick, dt: real): real
    requires t.Coast?
  {
    t.velocity * dt
  }

  /** How `Step` decides past the threshold, for a caller that computed the
      decelerated velocity itself. */
  lemma StepUnfolds(v: real, dt: real, f: real)
    requires dt >= 0.0 && Abs(v) >= VelocityThreshold && f == Decelerated(v, dt)
    ensures Step(v, dt) == if Reverses(v, f) then Stop else Coast(f)
  {
  }

  predicate NonNegative(dts: seq<real>) {
    forall k :: 0 <= k < |dts| ==> dts[k] >= 0.0
  }

  /** The fling velocity after the callback has run once per elapsed interval
      in `dts` (it stays put once a run does not reschedule). */
  function Settle(v: real, dts: seq<real>): (r: real)
    requires NonNegative(dts)
    // the speed never grows and the direction never flips
    ensures v >= 0.0 ==> 0.0 <= r <= v
    ensures v <= 0.0 ==> v <= r <= 0.0
    decreases |dts|
  {
    if dts == [] then v
    else match Step(v, dts[0])
      case Coast(f) => Settle(f, dts[1..])
      case _ => v
  }

  /** Whether every run of the callback over `dts` coasts. */
  predicate Coasts(v: real, dts: seq<real>)
    requires NonNegative(dts)
    decreases |dts|
  {
    dts == [] || (Step(v, dts[0]).Coast? && Coasts(Step(v, dts[0]).velocity, dts[1..]))
  }

  function Sum(dts: seq<real>): real
    decreases |dts|
  {
    if dts == [] then 0.0 else dts[0] + Sum(dts[1..])
  }

  /** While the fling coasts its speed falls by exactly Deceleration per second
      of elapsed time, so it cannot coast for longer than |v| / Deceleration. */
  lemma {:induction false} CoastingTime(v: real, dts: seq<real>)
    requires NonNegative(dts) && Coasts(v, dts)
    ensures Abs(Settle(v, dts)) == Abs(v) - Deceleration * Sum(dts)
    ensures Deceleration * Sum(dts) <= Abs(v)
    decreases |dts|
  {
    if dts != [] {
      var f := Step(v, dts[0]).velocity;
      assert NonNegative(dts[1..]);
      CoastingTime(f, dts[1..]);
    }
  }

  /** A fling released at 2 rad/s coasts for at most 0.2 seconds in total. */
  lemma FlingFromTwoSettlesQuickly(dts: seq<real>)
    requires NonNegative(dts) && Coasts(2.0, dts)
    ensures Sum(dts) <= 0.2
  {
    CoastingTime(2.0, dts);
  }
}
