/**
 Cutting one segment off the block in execution: the loop that follows the velocity profile until the
 segment lasts long enough and holds at least one step, or the profile is complete.
 */
module Segment {
  import opened Blocks
  import opened Profile

  /** Duration of a full segment in minutes: a hundredth of a second. */
  const DT_SEGMENT: real := 1.0 / 6000.0

  /** Speed gained in a time at constant acceleration. */
  function SpeedGain(a: real, time: real): real {
    a * time
  }

  /** Distance covered in a time in which the speed changes evenly from `v` by `dv`. */
  function Covered(v: real, dv: real, time: real): real {
    time * (v + 0.5 * dv)
  }

  /**
   One pass of the loop over the current ramp, for `time` unless the ramp ends first. `start` is the
   distance left in the block when the segment was begun. Returns where the pass ends and how long it took.
   A hold that begins at rest has neither distance nor speed left; no time is taken then.
   */
  function Pass(p: Profile, a: real, start: real, m: Motion, time: real): (r: (Motion, real))
    requires 0.0 < a && OnProfile(p, a, m)
  {
    var gain := SpeedGain(a, time);
    match m.ramp
    case Accelerating =>
      var mm := m.mm - Covered(m.speed, gain, time);
      if mm < p.accelerateUntil then
        (Motion(if p.accelerateUntil == p.decelerateAfter then Decelerating
          else Cruising, p.accelerateUntil, p.maximumSpeed),
         2.0 * (start - p.accelerateUntil) / (m.speed + p.maximumSpeed))
      else
        (Motion(Accelerating, mm, m.speed + gain), time)
    case Cruising =>
      var mm := m.mm - Covered(p.maximumSpeed, 0.0, time);
      if mm < p.decelerateAfter then
        (Motion(Decelerating, p.decelerateAfter, m.speed), (m.mm - p.decelerateAfter) / p.maximumSpeed)
      else
        (m.(mm := mm), time)
    case Decelerating =>
      var mm := m.mm - Covered(m.speed, -gain, time);
      if m.speed > gain && mm > p.mmComplete then
        (Motion(Decelerating, mm, m.speed - gain), time)
      else
        (Motion(Decelerating, p.mmComplete, p.exitSpeed),
         if m.speed + p.exitSpeed == 0.0 then 0.0 else 2.0 * (m.mm - p.mmComplete) / (m.speed + p.exitSpeed))
  }

  lemma Signs(x: real, y: real)
    requires 0.0 < y
    ensures x < 0.0 <==> x * y < 0.0
    ensures x < 0.0 <==> y * x < 0.0
    ensures 0.0 < x <==> 0.0 < x * y
    ensures 0.0 < x <==> 0.0 < y * x
  {
  }

  /** Over time the motion goes forward; it would go back in negative time. */
  lemma CoveredSign(v: real, dv: real, time: real)
    requires 0.0 < v + 0.5 * dv
    ensures time < 0.0 <==> Covered(v, dv, time) < 0.0
    ensures 0.0 < time <==> 0.0 < Covered(v, dv, time)
  {
    Signs(time, v + 0.5 * dv);
  }

  lemma SpeedGainSign(a: real, time: real)
    requires 0.0 < a
    ensures time < 0.0 <==> SpeedGain(a, time) < 0.0
    ensures 0.0 < time <==> 0.0 < SpeedGain(a, time)
  {
    Signs(time, a);
  }

  /** Uniform acceleration trades squared speed for distance at twice the acceleration, either way. */
  lemma UniformAcceleration(a: real, mm: real, v: real, time: real)
    ensures Sqr(v + SpeedGain(a, time)) + Gain(a, mm - Covered(v, SpeedGain(a, time), time)) == Sqr(v) + Gain(a, mm)
    ensures Sqr(v - SpeedGain(a, time)) - Gain(a, mm - Covered(v, -SpeedGain(a, time), time)) == Sqr(v) - Gain(a, mm)
  {
    var d := a * time;
    assert Sqr(v + d) == Sqr(v) + 2.0 * (v * d) + d * d;
    assert Sqr(v - d) == Sqr(v) - 2.0 * (v * d) + d * d;
    assert 2.0 * a * (time * (v + 0.5 * d)) == 2.0 * (v * d) + d * d;
    assert 2.0 * a * (time * (v - 0.5 * d)) == 2.0 * (v * d) - d * d;
    GainDifference(a, mm, time * (v + 0.5 * d));
    GainDifference(a, mm, time * (v - 0.5 * d));
  }

  /** Further along the acceleration. */
  lemma StillAccelerating(p: Profile, a: real, m: Motion, m': Motion)
    requires OnProfile(p, a, m) && m.ramp == Accelerating == m'.ramp
    requires p.accelerateUntil <= m'.mm && 0.0 <= m'.speed
    requires Sqr(m'.speed) + Gain(a, m'.mm) == Sqr(m.speed) + Gain(a, m.mm)
    ensures OnProfile(p, a, m')
  {
  }

  /** The end of the acceleration. */
  lemma AtPeak(p: Profile, a: real, m: Motion)
    requires 0.0 < a && OnProfile(p, a, m) && m.ramp == Accelerating
    ensures OnProfile(p, a, Motion(if p.accelerateUntil == p.decelerateAfter then Decelerating else Cruising,
                                   p.accelerateUntil, p.maximumSpeed))
  {
    GainMonotone(a, p.accelerateUntil, 0.0);
  }

  lemma AcceleratingPass(p: Profile, a: real, start: real, m: Motion, time: real)
    requires 0.0 < a && OnProfile(p, a, m) && m.ramp == Accelerating && 0.0 < time
    ensures OnProfile(p, a, Pass(p, a, start, m, time).0)
  {
    var gain := SpeedGain(a, time);
    var mm := m.mm - Covered(m.speed, gain, time);
    AtPeak(p, a, m);
    if p.accelerateUntil <= mm {
      UniformAcceleration(a, m.mm, m.speed, time);
      SpeedGainSign(a, time);
      StillAccelerating(p, a, m, Motion(Accelerating, mm, m.speed + gain));
    }
  }

  lemma CruisingPass(p: Profile, a: real, start: real, m: Motion, time: real)
    requires 0.0 < a && OnProfile(p, a, m) && m.ramp == Cruising && p.mmComplete < m.mm
    ensures OnProfile(p, a, Pass(p, a, start, m, time).0)
  {
    assert p.decelerateAfter - p.mmComplete == p.decelerateAfter;
  }

  /** Further along the deceleration. */
  lemma StillDecelerating(p: Profile, a: real, m: Motion, m': Motion)
    requires OnProfile(p, a, m) && m.ramp == Decelerating == m'.ramp
    requires p.mmComplete <= m'.mm && 0.0 <= m'.speed
    requires Sqr(m'.speed) - Gain(a, m'.mm) == Sqr(m.speed) - Gain(a, m.mm)
    ensures OnProfile(p, a, m')
  {
    GainDifference(a, m'.mm, p.mmComplete);
    GainDifference(a, m.mm, p.mmComplete);
  }

  /** The end of the deceleration. */
  lemma AtExit(p: Profile, a: real, m: Motion)
    requires 0.0 < a && OnProfile(p, a, m) && m.ramp == Decelerating
    ensures OnProfile(p, a, Motion(Decelerating, p.mmComplete, p.exitSpeed))
  {
    GainMonotone(a, 0.0, 0.0);
  }

  lemma DeceleratingPass(p: Profile, a: real, start: real, m: Motion, time: real)
    requires 0.0 < a && OnProfile(p, a, m) && m.ramp == Decelerating
    ensures OnProfile(p, a, Pass(p, a, start, m, time).0)
  {
    var gain := SpeedGain(a, time);
    var mm := m.mm - Covered(m.speed, -gain, time);
    AtExit(p, a, m);
    if m.speed > gain && mm > p.mmComplete {
      UniformAcceleration(a, m.mm, m.speed, time);
      StillDecelerating(p, a, m, Motion(Decelerating, mm, m.speed - gain));
    }
  }

  lemma GainDifference(a: real, x: real, y: real)
    ensures Gain(a, x - y) == Gain(a, x) - Gain(a, y)
  {
  }

  /** No pass leaves the profile, not even one that runs backward in time. */
  lemma PassKeepsProfile(p: Profile, a: real, start: real, m: Motion, time: real)
    requires 0.0 < a && OnProfile(p, a, m) && (p.mmComplete < m.mm || m.ramp == Decelerating)
    requires m.ramp == Accelerating ==> 0.0 < time
    ensures OnProfile(p, a, Pass(p, a, start, m, time).0)
  {
    match m.ramp
    case Accelerating => AcceleratingPass(p, a, start, m, time);
    case Cruising => CruisingPass(p, a, start, m, time);
    case Decelerating => DeceleratingPass(p, a, start, m, time);
  }

  /** The motion has come to the end of its profile: it is there at exactly the exit speed. */
  lemma AtEnd(p: Profile, a: real, m: Motion)
    requires 0.0 < a && OnProfile(p, a, m) && m.mm == p.mmComplete
    ensures m.speed == p.exitSpeed
  {
    GainMonotone(a, p.accelerateUntil, 0.0);
    GainMonotone(a, p.decelerateAfter, 0.0);
    if m.ramp != Cruising || !AccelerationOnly(p) {
      SpeedsCompare(m.speed, p.exitSpeed);
      if m.ramp == Accelerating {
        SpeedsCompare(m.speed, p.maximumSpeed);
        SpeedsCompare(p.maximumSpeed, p.exitSpeed);
      }
    }
  }

  /** On its profile the motion can still brake to the exit speed, and can still reach it. */
  lemma CanReachExit(p: Profile, a: real, m: Motion)
    requires 0.0 < a && OnProfile(p, a, m)
    ensures Sqr(m.speed) <= Sqr(p.exitSpeed) + Gain(a, m.mm)
    ensures p.mmComplete == 0.0 ==> Sqr(p.exitSpeed) <= Sqr(m.speed) + Gain(a, m.mm)
  {
    GainMonotone(a, 0.0, m.mm);
    GainMonotone(a, m.mm - p.mmComplete, m.mm);
    GainMonotone(a, p.decelerateAfter, m.mm);
    GainMonotone(a, p.accelerateUntil, m.mm);
    GainMonotone(a, 0.0, p.decelerateAfter);
    GainMonotone(a, 0.0, p.accelerateUntil);
    if m.ramp == Decelerating {
      GainMonotone(a, 0.0, m.mm - p.mmComplete);
    }
    if m.ramp == Accelerating && !AccelerationOnly(p) {
      GainMonotone(a, p.decelerateAfter, p.accelerateUntil);
    }
  }

  /** A pass forward in time does not move back, and a pass backward in time does not leave its ramp. */
  lemma PassMoves(p: Profile, a: real, start: real, m: Motion, time: real)
    requires 0.0 < a && OnProfile(p, a, m) && (p.mmComplete < m.mm || m.ramp == Decelerating)
    requires m.ramp == Accelerating ==> 0.0 < time
    ensures var m' := Pass(p, a, start, m, time).0;
            if 0.0 < time then m'.mm <= m.mm else m'.ramp == m.ramp
  {
    var gain := SpeedGain(a, time);
    SpeedGainSign(a, time);
    match m.ramp {
      case Accelerating => CoveredSign(m.speed, gain, time);
      case Cruising => CoveredSign(p.maximumSpeed, 0.0, time);
      case Decelerating =>
        if 0.0 < time && gain < m.speed {
          CoveredSign(m.speed, -gain, time);
        }
    }
  }

  lemma QuotientIs(x: real, y: real)
    requires y != 0.0
    ensures x / y * y == x
  {
  }

  /** Whether a pass ends the acceleration. */
  predicate EndsAcceleration(p: Profile, a: real, start: real, m: Motion, time: real)
    requires 0.0 < a && OnProfile(p, a, m)
  {
    m.ramp == Accelerating && Pass(p, a, start, m, time).0.ramp != Accelerating
  }

  /** In that time, at the mean of the two speeds, the distance is covered. */
  predicate Covers(time: real, v: real, v': real, distance: real) {
    time * (v + v') == 2.0 * distance
  }

  lemma EvenChange(v: real, dv: real, time: real)
    ensures Covers(time, v, v + dv, Covered(v, dv, time))
  {
    var w := v + 0.5 * dv;
    assert v + (v + dv) == 2.0 * w;
    assert time * (2.0 * w) == 2.0 * (time * w);
  }

  lemma MeanTime(v: real, v': real, d: real, d': real)
    requires v + v' != 0.0
    ensures Covers(2.0 * d / (v + v'), v, v', d') <==> d == d'
  {
    QuotientIs(2.0 * d, v + v');
  }

  lemma CruiseCovers(v: real, d: real)
    requires 0.0 < v
    ensures Covers(d / v, v, v, d)
  {
    QuotientIs(d, v);
    var q := d / v;
    assert q * (v + v) == 2.0 * (q * v);
  }

  lemma NoTime(v: real, v': real)
    ensures Covers(0.0, v, v', 0.0)
  {
  }

  /**
   The time taken for a pass is that in which the distance is covered at the mean of the speeds at both ends, except,
   unless it is the first of its segment, for the pass that ends the acceleration: that counts the distance from where
   the segment began.
   */
  lemma PassTakes(p: Profile, a: real, start: real, m: Motion, time: real)
    requires 0.0 < a && OnProfile(p, a, m) && (p.mmComplete < m.mm || m.ramp == Decelerating)
    requires m.ramp == Accelerating ==> 0.0 < time
    ensures var (m', took) := Pass(p, a, start, m, time);
            Covers(took, m.speed, m'.speed, m.mm - m'.mm)
            <==> !EndsAcceleration(p, a, start, m, time) || start == m.mm
  {
    var gain := SpeedGain(a, time);
    hide SpeedGain, Covered, Covers, Sqr, Gain;
    match m.ramp {
      case Accelerating =>
        EvenChange(m.speed, gain, time);
        MeanTime(m.speed, p.maximumSpeed, start - p.accelerateUntil, m.mm - p.accelerateUntil);
      case Cruising =>
        EvenChange(m.speed, 0.0, time);
        CruiseCovers(m.speed, m.mm - p.decelerateAfter);
      case Decelerating =>
        EvenChange(m.speed, -gain, time);
        if m.speed + p.exitSpeed == 0.0 {
          AtRest(p, a, m);
          NoTime(m.speed, p.exitSpeed);
        } else {
          MeanTime(m.speed, p.exitSpeed, m.mm - p.mmComplete, m.mm - p.mmComplete);
        }
    }
  }

  lemma AtRest(p: Profile, a: real, m: Motion)
    requires 0.0 < a && OnProfile(p, a, m) && m.ramp == Decelerating && m.speed + p.exitSpeed == 0.0
    ensures m.mm == p.mmComplete
  {
    assert Sqr(m.speed) == Sqr(p.exitSpeed);
    GainMonotone(a, m.mm - p.mmComplete, 0.0);
  }

  // ---------------------------------------------------------------------------------------------
  // Why the loop ends

  function Stage(r: Ramp): nat {
    match r case Accelerating => 2 case Cruising => 1 case Decelerating => 0
  }

  /** What a full pass uses up, and how much of it is left before the ramp has to end. */
  function Unit(p: Profile, a: real, r: Ramp): real {
    if r == Cruising then p.maximumSpeed * DT_SEGMENT else a * DT_SEGMENT
  }

  function Left(p: Profile, m: Motion): real {
    match m.ramp
    case Accelerating => p.maximumSpeed - m.speed
    case Cruising => m.mm - p.decelerateAfter
    case Decelerating => m.speed
  }

  /** Number of full passes the current ramp can still take. */
  function PassesLeft(p: Profile, a: real, m: Motion): nat
    requires 0.0 < a && OnProfile(p, a, m)
  {
    assert 0.0 < Unit(p, a, m.ramp);
    var n := (Left(p, m) / Unit(p, a, m.ramp)).Floor;
    if n < 0 then 0 else n
  }

  lemma Quotient(x: real, q: real, unit: real)
    requires unit != 0.0
    ensures x == q * unit <==> x / unit == q
  {
  }

  lemma FloorDrops(x: real, unit: real)
    requires 0.0 < unit <= x
    ensures 0 <= ((x - unit) / unit).Floor == (x / unit).Floor - 1
  {
    var q := x / unit;
    Quotient(x, q, unit);
    Quotient(x - unit, q - 1.0, unit);
    assert (q - 1.0) * unit == q * unit - unit;
    Compare(1.0, q, unit);
  }

  /** A full pass that does not end the ramp uses up one of them. */
  lemma FullPass(p: Profile, a: real, start: real, m: Motion)
    requires 0.0 < a && OnProfile(p, a, m) && (p.mmComplete < m.mm || m.ramp == Decelerating)
    requires var m' := Pass(p, a, start, m, DT_SEGMENT).0; m'.ramp == m.ramp && p.mmComplete < m'.mm
    ensures var m' := Pass(p, a, start, m, DT_SEGMENT).0;
            OnProfile(p, a, m') && PassesLeft(p, a, m') < PassesLeft(p, a, m)
  {
    var m' := Pass(p, a, start, m, DT_SEGMENT).0;
    PassKeepsProfile(p, a, start, m, DT_SEGMENT);
    assert Left(p, m') == Left(p, m) - Unit(p, a, m.ramp);
    if m.ramp == Accelerating {
      GainMonotone(a, p.accelerateUntil, m'.mm);
      SpeedsCompare(m'.speed, p.maximumSpeed);
    }
    assert 0.0 <= Left(p, m');
    FloorDrops(Left(p, m), Unit(p, a, m.ramp));
  }

  // ---------------------------------------------------------------------------------------------
  // What the motion gains over a segment

  /**
   Wherever the current ramp is followed from `bound` on, neither the speed `limit` nor the measure `most`
   of squared speed and distance is exceeded.
   */
  predicate Capped(p: Profile, a: real, m: Motion, bound: real, most: real, limit: real) {
    && p.mmComplete <= bound
    && 0.0 <= limit
    && match m.ramp
       case Accelerating =>
         m.mm <= bound && Sqr(m.speed) + Gain(a, m.mm) == most && p.maximumSpeed <= limit
       case Cruising =>
         && Sqr(p.maximumSpeed) + Gain(a, bound) <= most && p.maximumSpeed <= limit
         && ((AccelerationOnly(p) && m.mm == 0.0) || (p.decelerateAfter <= bound && Brakes(p, a)))
       case Decelerating =>
         && Sqr(p.exitSpeed) + Gain(a, bound - p.mmComplete) + Gain(a, bound) <= most
         && Sqr(p.exitSpeed) + Gain(a, bound - p.mmComplete) <= Sqr(limit)
  }

  lemma PassKeepsCap(p: Profile, a: real, start: real, m: Motion, time: real, bound: real, most: real, limit: real)
    requires 0.0 < a && OnProfile(p, a, m) && (p.mmComplete < m.mm || m.ramp == Decelerating)
    requires Capped(p, a, m, bound, most, limit)
    requires m.ramp == Accelerating ==> 0.0 < time
    ensures var m' := Pass(p, a, start, m, time).0;
            Capped(p, a, m', if m'.ramp == m.ramp then bound else m'.mm, most, limit)
  {
    var m' := Pass(p, a, start, m, time).0;
    PassKeepsProfile(p, a, start, m, time);
    GainMonotone(a, 0.0, 0.0);
    match m.ramp {
      case Accelerating =>
        SpeedsCompare(p.maximumSpeed, limit);
        PassMoves(p, a, start, m, time);
        UniformAcceleration(a, m.mm, m.speed, time);
      case Cruising =>
        SpeedsCompare(p.maximumSpeed, limit);
        GainMonotone(a, p.decelerateAfter, bound);
      case Decelerating =>
    }
  }

  lemma CapHolds(p: Profile, a: real, m: Motion, bound: real, most: real, limit: real)
    requires 0.0 < a && OnProfile(p, a, m) && Capped(p, a, m, bound, most, limit) && m.mm <= bound
    ensures Sqr(m.speed) + Gain(a, m.mm) <= most && m.speed <= limit
  {
    GainMonotone(a, m.mm, bound);
    GainMonotone(a, m.mm - p.mmComplete, bound - p.mmComplete);
    SpeedsCompare(m.speed, limit);
    if m.ramp == Accelerating {
      GainMonotone(a, p.accelerateUntil, m.mm);
      SpeedsCompare(m.speed, p.maximumSpeed);
    }
  }

  /** The highest speed the profile still holds for a motion on it. */
  function TopSpeed(p: Profile, m: Motion): real {
    if m.ramp == Decelerating then m.speed else p.maximumSpeed
  }

  /**
   Where a segment begun at `from` may end: on the profile, a given distance further on or at the end of
   the profile at exactly the exit speed, with no more gained than the acceleration allows, and no faster
   than the profile goes from here on.
   */
  predicate SegmentEnd(p: Profile, a: real, from: Motion, minimumMm: real, m: Motion) {
    && OnProfile(p, a, m)
    && (m.mm <= minimumMm || m.mm == p.mmComplete)
    && (m.mm == p.mmComplete ==> m.speed == p.exitSpeed)
    && Sqr(m.speed) + Gain(a, m.mm) <= Sqr(from.speed) + Gain(a, from.mm)
    && m.speed <= TopSpeed(p, from)
    && Stage(m.ramp) <= Stage(from.ramp)
  }

  /** The state of the loop: time taken so far, time aimed at, and time given to the next pass. */
  datatype Clock = Clock(dt: real, dtMax: real, timeVar: real)

  const FRESH_CLOCK := Clock(0.0, DT_SEGMENT, DT_SEGMENT)

  predicate Ready(p: Profile, a: real, m: Motion, c: Clock) {
    && 0.0 < a && OnProfile(p, a, m) && (p.mmComplete < m.mm || m.ramp == Decelerating)
    && c.dt + c.timeVar == c.dtMax
    && (c.timeVar == DT_SEGMENT || m.ramp != Accelerating)
  }

  /** The clock after a pass that took `time`; a segment that is too short is given another segment time. */
  function Tick(c: Clock, time: real): Clock {
    var dt, dtMax := c.dt + time, if c.dt + time < c.dtMax then c.dtMax else c.dtMax + DT_SEGMENT;
    Clock(dt, dtMax, dtMax - dt)
  }

  /** The loop is done when the segment is long enough in time and distance, or the profile is complete. */
  predicate Done(p: Profile, minimumMm: real, m: Motion, c: Clock, time: real) {
    (c.dtMax <= c.dt + time && m.mm <= minimumMm) || m.mm <= p.mmComplete
  }

  lemma PassKeepsReady(p: Profile, a: real, start: real, m: Motion, c: Clock)
    requires Ready(p, a, m, c)
    ensures var (m', time) := Pass(p, a, start, m, c.timeVar);
            && OnProfile(p, a, m')
            && Stage(m'.ramp) <= Stage(m.ramp)
            && (p.mmComplete < m'.mm ==>
                  && Ready(p, a, m', Tick(c, time))
                  && (m'.ramp == m.ramp ==>
                        && Tick(c, time).timeVar == DT_SEGMENT
                        && (c.timeVar == DT_SEGMENT ==> PassesLeft(p, a, m') < PassesLeft(p, a, m))))
  {
    var (m', time) := Pass(p, a, start, m, c.timeVar);
    PassKeepsProfile(p, a, start, m, c.timeVar);
    if p.mmComplete < m'.mm && m'.ramp == m.ramp && c.timeVar == DT_SEGMENT {
      FullPass(p, a, start, m);
    }
  }

  /** Where the loop ends. It does end: each pass finishes a ramp or uses up one of the passes left to it. */
  function Follow(p: Profile, a: real, start: real, minimumMm: real, m: Motion, c: Clock): Motion
    requires Ready(p, a, m, c)
    decreases Stage(m.ramp), if c.timeVar == DT_SEGMENT then 0 else 1, PassesLeft(p, a, m)
  {
    PassKeepsReady(p, a, start, m, c);
    var (m', time) := Pass(p, a, start, m, c.timeVar);
    if Done(p, minimumMm, m', c, time) then m' else Follow(p, a, start, minimumMm, m', Tick(c, time))
  }

  /** The time the passes of the loop are taken to last together with `c.dt`. */
  function FollowTime(p: Profile, a: real, start: real, minimumMm: real, m: Motion, c: Clock): real
    requires Ready(p, a, m, c)
    decreases Stage(m.ramp), if c.timeVar == DT_SEGMENT then 0 else 1, PassesLeft(p, a, m)
  {
    PassKeepsReady(p, a, start, m, c);
    var (m', time) := Pass(p, a, start, m, c.timeVar);
    if Done(p, minimumMm, m', c, time) then c.dt + time else FollowTime(p, a, start, minimumMm, m', Tick(c, time))
  }

  /** A segment that does not complete the profile lasts a full segment time at least. */
  lemma {:induction false} FollowLasts(p: Profile, a: real, start: real, minimumMm: real, m: Motion, c: Clock)
    requires Ready(p, a, m, c) && DT_SEGMENT <= c.dtMax
    ensures p.mmComplete < Follow(p, a, start, minimumMm, m, c).mm ==>
              DT_SEGMENT <= FollowTime(p, a, start, minimumMm, m, c)
    decreases Stage(m.ramp), if c.timeVar == DT_SEGMENT then 0 else 1, PassesLeft(p, a, m)
  {
    PassKeepsReady(p, a, start, m, c);
    var (m', time) := Pass(p, a, start, m, c.timeVar);
    if !Done(p, minimumMm, m', c, time) {
      FollowLasts(p, a, start, minimumMm, m', Tick(c, time));
    }
  }

  /** The segment begun at `from`. */
  function SegmentOf(p: Profile, a: real, from: Motion, minimumMm: real): Motion
    requires Ready(p, a, from, FRESH_CLOCK)
  {
    Follow(p, a, from.mm, minimumMm, from, FRESH_CLOCK)
  }

  /** The loop itself. */
  method FollowProfile(p: Profile, a: real, from: Motion, minimumMm: real) returns (m: Motion)
    requires Ready(p, a, from, FRESH_CLOCK)
    ensures m == SegmentOf(p, a, from, minimumMm)
  {
    var start := from.mm;
    var dtMax, dt, timeVar := DT_SEGMENT, 0.0, DT_SEGMENT;
    m := from;
    while true
      invariant Ready(p, a, m, Clock(dt, dtMax, timeVar))
      invariant Follow(p, a, start, minimumMm, m, Clock(dt, dtMax, timeVar)) == SegmentOf(p, a, from, minimumMm)
      decreases Stage(m.ramp), if timeVar == DT_SEGMENT then 0 else 1, PassesLeft(p, a, m)
    {
      ghost var clock := Clock(dt, dtMax, timeVar);
      PassKeepsReady(p, a, start, m, clock);
      var (next, time) := Pass(p, a, start, m, timeVar);
      m := next;
      dt := dt + time;
      if dt < dtMax {
        timeVar := dtMax - dt;
      } else if m.mm > minimumMm {
        dtMax := dtMax + DT_SEGMENT;
        timeVar := dtMax - dt;
      } else {
        break;
      }
      if m.mm <= p.mmComplete {
        break;
      }
      assert Clock(dt, dtMax, timeVar) == Tick(clock, time);
    }
  }

  /** What holds around every pass, besides the motion being on its profile. */
  predicate Bounded(p: Profile, a: real, minimumMm: real, m: Motion, c: Clock, bound: real, most: real, limit: real) {
    && Capped(p, a, m, bound, most, limit)
    && (0.0 < c.timeVar || minimumMm < bound)
    && (m.mm <= bound || minimumMm < bound)
  }

  lemma PassKeepsBounded(
      p: Profile, a: real, start: real, minimumMm: real, m: Motion, c: Clock, bound: real, most: real, limit: real)
    requires Ready(p, a, m, c) && Bounded(p, a, minimumMm, m, c, bound, most, limit)
    ensures var (m', time) := Pass(p, a, start, m, c.timeVar);
            var bound' := if m'.ramp == m.ramp then bound else m'.mm;
            && OnProfile(p, a, m')
            && Capped(p, a, m', bound', most, limit)
            && (m'.mm <= bound' || minimumMm < bound')
            && (!Done(p, minimumMm, m', c, time) ==> Bounded(p, a, minimumMm, m', Tick(c, time), bound', most, limit))
  {
    PassKeepsReady(p, a, start, m, c);
    PassKeepsCap(p, a, start, m, c.timeVar, bound, most, limit);
    PassMoves(p, a, start, m, c.timeVar);
  }

  lemma {:induction false} FollowEnds(
      p: Profile, a: real, start: real, minimumMm: real, m: Motion, c: Clock, bound: real, most: real, limit: real)
    requires Ready(p, a, m, c) && Bounded(p, a, minimumMm, m, c, bound, most, limit)
    ensures var m' := Follow(p, a, start, minimumMm, m, c);
            && OnProfile(p, a, m')
            && (m'.mm <= minimumMm || m'.mm == p.mmComplete)
            && (m'.mm == p.mmComplete ==> m'.speed == p.exitSpeed)
            && Sqr(m'.speed) + Gain(a, m'.mm) <= most && m'.speed <= limit
            && Stage(m'.ramp) <= Stage(m.ramp)
    decreases Stage(m.ramp), if c.timeVar == DT_SEGMENT then 0 else 1, PassesLeft(p, a, m)
  {
    PassKeepsReady(p, a, start, m, c);
    PassKeepsBounded(p, a, start, minimumMm, m, c, bound, most, limit);
    var (m', time) := Pass(p, a, start, m, c.timeVar);
    var bound' := if m'.ramp == m.ramp then bound else m'.mm;
    if Done(p, minimumMm, m', c, time) {
      CapHolds(p, a, m', bound', most, limit);
      if m'.mm == p.mmComplete {
        AtEnd(p, a, m');
      }
    } else {
      FollowEnds(p, a, start, minimumMm, m', Tick(c, time), bound', most, limit);
    }
  }

  /**
   However many ramps it crosses, and although a pass may run backward in time, a segment as a whole moves
   forward to a proper end.
   */
  lemma SegmentEnds(p: Profile, a: real, from: Motion, minimumMm: real)
    requires Ready(p, a, from, FRESH_CLOCK) && minimumMm < from.mm
    ensures SegmentEnd(p, a, from, minimumMm, SegmentOf(p, a, from, minimumMm))
  {
    if from.ramp == Accelerating {
      GainMonotone(a, p.accelerateUntil, from.mm);
      SpeedsCompare(from.speed, p.maximumSpeed);
    }
    StartsCapped(p, a, from, TopSpeed(p, from));
    var most := Sqr(from.speed) + Gain(a, from.mm);
    FollowEnds(p, a, from.mm, minimumMm, from, FRESH_CLOCK, from.mm, most, TopSpeed(p, from));
  }

  lemma StartsCapped(p: Profile, a: real, m: Motion, limit: real)
    requires 0.0 < a && OnProfile(p, a, m)
    requires m.speed <= limit && (m.ramp != Decelerating ==> p.maximumSpeed <= limit)
    ensures Capped(p, a, m, m.mm, Sqr(m.speed) + Gain(a, m.mm), limit)
  {
    SpeedsCompare(m.speed, limit);
  }

  // ---------------------------------------------------------------------------------------------
  // Passes that run backward

  /** The time given to the next pass, after one that took the loop to `dt`. */
  function NextTime(dt: real, dtMax: real): real {
    if dt < dtMax then dtMax - dt else dtMax + DT_SEGMENT - dt
  }

  /**
   The pass that ends the acceleration measures its time from the start of the segment, although earlier passes
   have used some of it. Exactly when the whole distance from there takes longer than two segment times at the mean
   of the speeds, the loop owes a negative time, and the next pass, if it is made, goes back by what cruising or
   braking would cover in it.
   */
  lemma RunsBackward(p: Profile, a: real, start: real, m: Motion, dtMax: real)
    requires 0.0 < a && OnProfile(p, a, m) && m.ramp == Accelerating && m.mm <= start
    requires Pass(p, a, start, m, DT_SEGMENT).0.ramp != Accelerating
    requires 0.0 < p.accelerateUntil && p.decelerateAfter <= p.accelerateUntil
    ensures var (m1, time) := Pass(p, a, start, m, DT_SEGMENT);
            var next := NextTime(dtMax - DT_SEGMENT + time, dtMax);
            && OnProfile(p, a, m1)
            && (next < 0.0 <==> start - p.accelerateUntil > DT_SEGMENT * (m.speed + p.maximumSpeed))
            && (next < 0.0 <==> Pass(p, a, start, m1, next).0.mm > m1.mm)
  {
    var (m1, time) := Pass(p, a, start, m, DT_SEGMENT);
    var next := NextTime(dtMax - DT_SEGMENT + time, dtMax);
    PassKeepsProfile(p, a, start, m, DT_SEGMENT);
    JunctionTime(start - p.accelerateUntil, m.speed + p.maximumSpeed, dtMax);
    if next < 0.0 {
      GoesBack(p, a, start, m1, next);
    } else {
      GoesOn(p, a, start, m1, next);
    }
  }

  /** Some pass the loop makes from here on ends further from the end of the block than it began. */
  predicate Back(p: Profile, a: real, start: real, minimumMm: real, m: Motion, c: Clock)
    requires Ready(p, a, m, c)
    decreases Stage(m.ramp), if c.timeVar == DT_SEGMENT then 0 else 1, PassesLeft(p, a, m)
  {
    PassKeepsReady(p, a, start, m, c);
    var (m', time) := Pass(p, a, start, m, c.timeVar);
    || m'.mm > m.mm
    || (!Done(p, minimumMm, m', c, time) && Back(p, a, start, minimumMm, m', Tick(c, time)))
  }

  /** Cruising or braking for a time, a pass takes no longer than that and does not go back. */
  lemma PassInTime(p: Profile, a: real, start: real, m: Motion, time: real)
    requires 0.0 < a && OnProfile(p, a, m) && (p.mmComplete < m.mm || m.ramp == Decelerating)
    requires m.ramp != Accelerating && 0.0 <= time
    ensures var (m', took) := Pass(p, a, start, m, time);
            && m'.mm <= m.mm && m'.ramp != Accelerating
            && (p.mmComplete < m'.mm ==> took <= time)
  {
    SpeedGainSign(a, time);
    if m.ramp == Cruising {
      CoveredSign(p.maximumSpeed, 0.0, time);
      CruiseTime(m.mm - p.decelerateAfter, p.maximumSpeed, time);
    } else if SpeedGain(a, time) < m.speed {
      CoveredSign(m.speed, -SpeedGain(a, time), time);
    }
  }

  lemma CruiseTime(distance: real, v: real, time: real)
    requires 0.0 < v
    ensures distance < Covered(v, 0.0, time) ==> distance / v < time
  {
    Quotient(distance, distance / v, v);
    Compare(time, distance / v, v);
  }

  /** After a pass that does not end the acceleration the next one is given some time, at most a segment time. */
  lemma TimeGiven(p: Profile, a: real, start: real, m: Motion, c: Clock)
    requires Ready(p, a, m, c) && 0.0 < c.timeVar <= DT_SEGMENT && !EndsAcceleration(p, a, start, m, c.timeVar)
    requires p.mmComplete < Pass(p, a, start, m, c.timeVar).0.mm
    ensures 0.0 < Tick(c, Pass(p, a, start, m, c.timeVar).1).timeVar <= DT_SEGMENT
  {
    if m.ramp != Accelerating {
      PassInTime(p, a, start, m, c.timeVar);
    }
    if m.ramp == Cruising {
      CruiseCovers(p.maximumSpeed, m.mm - p.decelerateAfter);
      Signs((m.mm - p.decelerateAfter) / p.maximumSpeed, p.maximumSpeed + p.maximumSpeed);
    }
    hide SpeedGain, Covered, Sqr, Gain;
  }

  /** Once the acceleration is over and no time is owed, no pass goes back. */
  lemma {:induction false} NoneGoesBack(p: Profile, a: real, start: real, minimumMm: real, m: Motion, c: Clock)
    requires Ready(p, a, m, c) && m.ramp != Accelerating && 0.0 <= c.timeVar
    ensures !Back(p, a, start, minimumMm, m, c)
    decreases Stage(m.ramp), if c.timeVar == DT_SEGMENT then 0 else 1, PassesLeft(p, a, m)
  {
    PassKeepsReady(p, a, start, m, c);
    PassInTime(p, a, start, m, c.timeVar);
    var (m', time) := Pass(p, a, start, m, c.timeVar);
    if !Done(p, minimumMm, m', c, time) {
      NoneGoesBack(p, a, start, minimumMm, m', Tick(c, time));
    }
  }

  /**
   After the pass that ends the acceleration a pass goes back exactly when the loop owes a negative time and goes
   on, which it does while the end of the acceleration is short of where the segment has to end.
   */
  lemma BackAfterPeak(p: Profile, a: real, start: real, minimumMm: real, m: Motion, c: Clock)
    requires Ready(p, a, m, c) && m.ramp == Accelerating && m.mm <= start
    requires Pass(p, a, start, m, DT_SEGMENT).0.ramp != Accelerating
    requires 0.0 < p.accelerateUntil
    ensures Back(p, a, start, minimumMm, m, c)
            <==> minimumMm < p.accelerateUntil
                 && start - p.accelerateUntil > DT_SEGMENT * (m.speed + p.maximumSpeed)
  {
    RunsBackward(p, a, start, m, c.dtMax);
    PassKeepsReady(p, a, start, m, c);
    PassMoves(p, a, start, m, DT_SEGMENT);
    var (m1, time) := Pass(p, a, start, m, DT_SEGMENT);
    if !Done(p, minimumMm, m1, c, time) && 0.0 <= Tick(c, time).timeVar {
      NoneGoesBack(p, a, start, minimumMm, m1, Tick(c, time));
    }
  }

  /** The speed after all the full passes that the acceleration still takes. */
  function LastSpeed(p: Profile, a: real, m: Motion): real
    requires 0.0 < a && OnProfile(p, a, m)
  {
    m.speed + PassesLeft(p, a, m) as real * SpeedGain(a, DT_SEGMENT)
  }

  /** The pass that ends the acceleration is not a full one. */
  lemma NoFullPassLeft(p: Profile, a: real, start: real, m: Motion)
    requires 0.0 < a && OnProfile(p, a, m) && m.ramp == Accelerating
    requires Pass(p, a, start, m, DT_SEGMENT).0.ramp != Accelerating
    ensures PassesLeft(p, a, m) == 0 && LastSpeed(p, a, m) == m.speed
  {
    var gain := SpeedGain(a, DT_SEGMENT);
    UniformAcceleration(a, m.mm, m.speed, DT_SEGMENT);
    GainMonotone(a, m.mm - Covered(m.speed, gain, DT_SEGMENT), p.accelerateUntil);
    SpeedGainSign(a, DT_SEGMENT);
    SpeedsCompare(m.speed + gain, p.maximumSpeed);
    LessThanOne(Left(p, m), Unit(p, a, m.ramp));
  }

  lemma LessThanOne(x: real, unit: real)
    requires x < unit && 0.0 < unit
    ensures (x / unit).Floor <= 0
  {
    Quotient(x, x / unit, unit);
    Compare(1.0, x / unit, unit);
  }

  /** A full pass takes one of those left, and what they lead to stays the same. */
  lemma FullAcceleration(p: Profile, a: real, start: real, m: Motion)
    requires 0.0 < a && OnProfile(p, a, m) && m.ramp == Accelerating
    requires Pass(p, a, start, m, DT_SEGMENT).0.ramp == Accelerating
    ensures var m' := Pass(p, a, start, m, DT_SEGMENT).0;
            OnProfile(p, a, m') && LastSpeed(p, a, m') == LastSpeed(p, a, m)
  {
    hide PassesLeft, OnProfile, Pass, SpeedGain;
    StillBelowPeak(p, a, start, m);
    var m' := Pass(p, a, start, m, DT_SEGMENT).0;
    OnePassLess(p, a, m, m');
    OneUnitOfSpeed(PassesLeft(p, a, m), PassesLeft(p, a, m'), SpeedGain(a, DT_SEGMENT));
  }

  lemma StillBelowPeak(p: Profile, a: real, start: real, m: Motion)
    requires 0.0 < a && OnProfile(p, a, m) && m.ramp == Accelerating
    requires Pass(p, a, start, m, DT_SEGMENT).0.ramp == Accelerating
    ensures var m' := Pass(p, a, start, m, DT_SEGMENT).0;
            OnProfile(p, a, m') && m'.speed == m.speed + SpeedGain(a, DT_SEGMENT) <= p.maximumSpeed
  {
    hide SpeedGain, Covered;
    AcceleratingPass(p, a, start, m, DT_SEGMENT);
    BelowPeak(p, a, Pass(p, a, start, m, DT_SEGMENT).0);
  }

  lemma BelowPeak(p: Profile, a: real, m: Motion)
    requires 0.0 < a && OnProfile(p, a, m) && m.ramp == Accelerating
    ensures m.speed <= p.maximumSpeed
  {
    GainMonotone(a, p.accelerateUntil, m.mm);
    SpeedsCompare(m.speed, p.maximumSpeed);
  }

  lemma OnePassLess(p: Profile, a: real, m: Motion, m': Motion)
    requires 0.0 < a && OnProfile(p, a, m) && OnProfile(p, a, m') && m.ramp == m'.ramp == Accelerating
    requires m'.speed == m.speed + SpeedGain(a, DT_SEGMENT) <= p.maximumSpeed
    ensures PassesLeft(p, a, m) == PassesLeft(p, a, m') + 1
  {
    FloorDrops(Left(p, m), Unit(p, a, m.ramp));
  }

  lemma OneUnitOfSpeed(n: nat, n': nat, gain: real)
    requires n == n' + 1
    ensures n as real * gain == n' as real * gain + gain
  {
    assert n as real == n' as real + 1.0;
  }

  /** What the loop does from `m` on, in a segment begun at `start`. */
  lemma {:induction false} BackExactly(p: Profile, a: real, start: real, minimumMm: real, m: Motion, c: Clock)
    requires Ready(p, a, m, c) && m.mm <= start && 0.0 <= minimumMm && 0.0 <= c.timeVar
    ensures Back(p, a, start, minimumMm, m, c)
            <==> && m.ramp == Accelerating
                 && minimumMm < p.accelerateUntil
                 && start - p.accelerateUntil > DT_SEGMENT * (LastSpeed(p, a, m) + p.maximumSpeed)
    decreases Stage(m.ramp), if c.timeVar == DT_SEGMENT then 0 else 1, PassesLeft(p, a, m)
  {
    PassKeepsReady(p, a, start, m, c);
    var (m', time) := Pass(p, a, start, m, c.timeVar);
    if m.ramp != Accelerating {
      NoneGoesBack(p, a, start, minimumMm, m, c);
    } else if m'.ramp == Accelerating {
      PassMoves(p, a, start, m, DT_SEGMENT);
      FullAcceleration(p, a, start, m);
      if !Done(p, minimumMm, m', c, time) {
        BackExactly(p, a, start, minimumMm, m', Tick(c, time));
      }
    } else {
      NoFullPassLeft(p, a, start, m);
      if 0.0 < p.accelerateUntil {
        BackAfterPeak(p, a, start, minimumMm, m, c);
      } else {
        PassMoves(p, a, start, m, DT_SEGMENT);
      }
    }
  }

  /**
   The distance left increases within a segment exactly when the segment begins on the acceleration, has to go on
   past its end, and the whole distance to that end takes longer than two segment times at the mean of the peak speed
   and the speed after the last full pass.
   */
  lemma SegmentGoesBack(p: Profile, a: real, from: Motion, minimumMm: real)
    requires Ready(p, a, from, FRESH_CLOCK) && 0.0 <= minimumMm
    ensures Back(p, a, from.mm, minimumMm, from, FRESH_CLOCK)
            <==> && from.ramp == Accelerating
                 && minimumMm < p.accelerateUntil
                 && from.mm - p.accelerateUntil > DT_SEGMENT * (LastSpeed(p, a, from) + p.maximumSpeed)
  {
    BackExactly(p, a, from.mm, minimumMm, from, FRESH_CLOCK);
  }

  /** A millimetre from rest to rest at 36000 mm/min^2, with a programmed rate of 29.4 mm/min. */
  const SLOW_START := Task(1.0, 36000.0, 0.0, 0.0, 29.4)
  const SLOW_PROFILE := Profile(0.987995, 0.012005, 29.4, 0.0, 0.0)

  lemma SlowStartProfile(root: real -> real)
    requires SquareRoot(root)
    ensures Reachable(SLOW_START)
    ensures Normal(SLOW_START, root, Profile(0.0, 0.0, 0.0, 0.0, 0.0)) == (Accelerating, SLOW_PROFILE)
  {
    assert Sqr(29.4) == 864.36;
    assert Sqr(RootOf(root, 0.0)) == 0.0;
    SpeedsCompare(RootOf(root, 0.0), 0.0);
    assert InvTwoAccel(SLOW_START) * 864.36 == 0.012005;
  }

  /** The motion after `n` full passes from rest at the start of that millimetre. */
  function AfterPasses(n: nat): Motion
    requires n <= 4
  {
    Motion(Accelerating, 1.0 - 0.0005 * (n * n) as real, 6.0 * n as real)
  }

  /**
   It does happen: with 100 steps to the millimetre a segment must cover a step and a quarter. Four full
   passes from rest have not made that up, and the fifth, which ends the acceleration just short of it, is
   timed at more than two segment times.
   */
  lemma RunsBackwardFromRest(n: nat)
    requires n <= 4
    ensures OnProfile(SLOW_PROFILE, 36000.0, AfterPasses(n))
    ensures var next := Pass(SLOW_PROFILE, 36000.0, 1.0, AfterPasses(n), DT_SEGMENT).0;
            if n < 4
            then next == AfterPasses(n + 1)
            else && next == Motion(Cruising, SLOW_PROFILE.accelerateUntil, 29.4)
                 && 1.0 - 1.25 / 100.0 < next.mm
                 && 1.0 - next.mm > DT_SEGMENT * (AfterPasses(n).speed + SLOW_PROFILE.maximumSpeed)
  {
  }

  /** So the first segment of that millimetre goes back with 100 steps to it, and does not with 125. */
  lemma GoesBackFromRest()
    ensures Ready(SLOW_PROFILE, 36000.0, AfterPasses(0), FRESH_CLOCK)
    ensures Back(SLOW_PROFILE, 36000.0, 1.0, 1.0 - 1.25 / 100.0, AfterPasses(0), FRESH_CLOCK)
    ensures !Back(SLOW_PROFILE, 36000.0, 1.0, 1.0 - 1.25 / 125.0, AfterPasses(0), FRESH_CLOCK)
  {
    var m := AfterPasses(0);
    RunsBackwardFromRest(0);
    assert m == Motion(Accelerating, 1.0, 0.0) && SpeedGain(36000.0, DT_SEGMENT) == 6.0;
    assert (29.4 / 6.0).Floor == 4;
    assert PassesLeft(SLOW_PROFILE, 36000.0, m) == 4;
    SegmentGoesBack(SLOW_PROFILE, 36000.0, m, 1.0 - 1.25 / 100.0);
    SegmentGoesBack(SLOW_PROFILE, 36000.0, m, 1.0 - 1.25 / 125.0);
  }

  lemma JunctionTime(distance: real, sum: real, dtMax: real)
    requires 0.0 < sum
    ensures NextTime(dtMax - DT_SEGMENT + 2.0 * distance / sum, dtMax) < 0.0 <==> distance > DT_SEGMENT * sum
  {
    var time := 2.0 * distance / sum;
    Quotient(2.0 * distance, time, sum);
    Compare(time, 2.0 * DT_SEGMENT, sum);
  }

  lemma Compare(x: real, y: real, s: real)
    requires 0.0 < s
    ensures x * s <= y * s <==> x <= y
  {
    Signs(x - y, s);
    assert (x - y) * s == x * s - y * s;
  }

  lemma GoesOn(p: Profile, a: real, start: real, m: Motion, time: real)
    requires 0.0 < a && OnProfile(p, a, m) && p.mmComplete < m.mm && 0.0 <= time && m.ramp != Accelerating
    ensures Pass(p, a, start, m, time).0.mm <= m.mm
  {
    if 0.0 < time {
      PassMoves(p, a, start, m, time);
    }
  }

  lemma GoesBack(p: Profile, a: real, start: real, m: Motion, time: real)
    requires 0.0 < a && OnProfile(p, a, m) && p.mmComplete < m.mm && time < 0.0 && m.ramp != Accelerating
    ensures Pass(p, a, start, m, time).0.mm > m.mm
  {
    SpeedGainSign(a, time);
    if m.ramp == Cruising {
      CoveredSign(p.maximumSpeed, 0.0, time);
    } else {
      CoveredSign(m.speed, -SpeedGain(a, time), time);
    }
  }
}
