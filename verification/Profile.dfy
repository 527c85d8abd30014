/**
 The velocity profile of the block in execution: how it is laid out from the planned entry and exit speeds,
 and how one pass of the segment loop moves along it. Distances are measured from the end of the block.
 */
module Profile {
  import opened Blocks

  datatype Ramp = Accelerating | Cruising | Decelerating

  datatype Profile = Profile(
    accelerateUntil: real,
    decelerateAfter: real,
    maximumSpeed: real,
    exitSpeed: real,
    mmComplete: real)

  /** Where the motion is: the ramp it is on, the distance left in the block, and the speed. */
  datatype Motion = Motion(ramp: Ramp, mm: real, speed: real)

  /** The square root is a parameter of everything that takes one. */
  function RootOf(root: real -> real, x: real): real {
    root(x)
  }

  /** All that is asked of it. */
  ghost predicate SquareRoot(root: real -> real) {
    forall x: real :: 0.0 <= x ==> 0.0 <= RootOf(root, x) && Sqr(RootOf(root, x)) == x
  }

  /** Acceleration to the end of the block at exactly the exit speed; no other ramp follows. */
  predicate AccelerationOnly(p: Profile) {
    p.accelerateUntil == 0.0 && p.maximumSpeed == p.exitSpeed
  }

  /** The peak speed is the one from which the exit speed is reached by braking after `decelerateAfter`. */
  predicate Brakes(p: Profile, a: real) {
    0.0 <= p.decelerateAfter && Sqr(p.maximumSpeed) == Sqr(p.exitSpeed) + Gain(a, p.decelerateAfter)
  }

  /** The motion is on its profile. */
  predicate OnProfile(p: Profile, a: real, m: Motion) {
    && 0.0 <= m.speed
    && 0.0 <= p.exitSpeed
    && 0.0 <= p.mmComplete <= m.mm
    && match m.ramp
       case Accelerating =>
         && p.mmComplete == 0.0
         && 0.0 < p.maximumSpeed
         && 0.0 <= p.accelerateUntil <= m.mm
         && Sqr(m.speed) + Gain(a, m.mm) == Sqr(p.maximumSpeed) + Gain(a, p.accelerateUntil)
         && (AccelerationOnly(p) || (p.decelerateAfter <= p.accelerateUntil && Brakes(p, a)))
       case Cruising =>
         && p.mmComplete == 0.0
         && 0.0 < p.maximumSpeed == m.speed
         && ((AccelerationOnly(p) && m.mm == 0.0) || (p.decelerateAfter <= m.mm && Brakes(p, a)))
       case Decelerating =>
         Sqr(m.speed) == Sqr(p.exitSpeed) + Gain(a, m.mm - p.mmComplete)
  }

  // ---------------------------------------------------------------------------------------------
  // Laying out the profile

  /** What the layout is made from. */
  datatype Task = Task(millimeters: real, acceleration: real, entrySqr: real, exitSqr: real, nominalSpeed: real)

  function InvTwoAccel(t: Task): real
    requires 0.0 < t.acceleration
  {
    0.5 / t.acceleration
  }

  /** Entry and exit the planner may ask for: reachable from each other and within the nominal speed. */
  predicate Reachable(t: Task) {
    && 0.0 < t.acceleration && 0.0 < t.millimeters && 1.0 <= t.nominalSpeed
    && 0.0 <= t.entrySqr <= Sqr(t.nominalSpeed)
    && 0.0 <= t.exitSqr <= Sqr(t.nominalSpeed)
    && t.entrySqr <= t.exitSqr + Gain(t.acceleration, t.millimeters)
    && t.exitSqr <= t.entrySqr + Gain(t.acceleration, t.millimeters)
  }

  /** Where acceleration from the entry meets deceleration to the exit. */
  function Intersection(t: Task): real
    requires 0.0 < t.acceleration
  {
    0.5 * (t.millimeters + InvTwoAccel(t) * (t.entrySqr - t.exitSqr))
  }

  /** Where braking from the nominal speed has to begin. */
  function NominalBraking(t: Task): real
    requires 0.0 < t.acceleration
  {
    InvTwoAccel(t) * (Sqr(t.nominalSpeed) - t.exitSqr)
  }

  /** Where the nominal speed is reached from the entry. */
  function NominalReached(t: Task): real
    requires 0.0 < t.acceleration
  {
    t.millimeters - InvTwoAccel(t) * (Sqr(t.nominalSpeed) - t.entrySqr)
  }

  /** Squared speed at the intersection. */
  function PeakSqr(t: Task): real
    requires 0.0 < t.acceleration
  {
    2.0 * t.acceleration * Intersection(t) + t.exitSqr
  }

  /** The profile of a normal motion. Fields a ramp type does not use keep their previous values. */
  function Normal(t: Task, root: real -> real, previous: Profile): (Ramp, Profile)
    requires 0.0 < t.acceleration
  {
    var p := previous.(mmComplete := 0.0, exitSpeed := RootOf(root, t.exitSqr), accelerateUntil := t.millimeters);
    var intersect := Intersection(t);
    if intersect > 0.0 then
      if intersect < t.millimeters then
        if NominalBraking(t) < intersect then
          var q := p.(decelerateAfter := NominalBraking(t), maximumSpeed := t.nominalSpeed);
          if t.entrySqr == Sqr(t.nominalSpeed) then (Cruising, q)
          else (Accelerating, q.(accelerateUntil := NominalReached(t)))
        else
          (Accelerating, p.(accelerateUntil := intersect, decelerateAfter := intersect,
                            maximumSpeed := RootOf(root, PeakSqr(t))))
      else (Decelerating, p)
    else (Accelerating, p.(accelerateUntil := 0.0, maximumSpeed := p.exitSpeed))
  }

  /** Where a feed hold comes to rest, negative if that is beyond the block. */
  function HoldStop(t: Task): real
    requires 0.0 < t.acceleration
  {
    t.millimeters - InvTwoAccel(t) * t.entrySqr
  }

  /** Squared speed left at the end of a block in which a feed hold brakes throughout. */
  function HoldExitSqr(t: Task): real {
    t.entrySqr - 2.0 * t.acceleration * t.millimeters
  }

  /** The profile of a feed hold: braking to a stop, in this block or beyond it. */
  function Hold(t: Task, root: real -> real, previous: Profile): (Ramp, Profile)
    requires 0.0 < t.acceleration
  {
    if HoldStop(t) < 0.0
    then (Decelerating, previous.(mmComplete := 0.0, exitSpeed := RootOf(root, HoldExitSqr(t))))
    else (Decelerating, previous.(mmComplete := HoldStop(t), exitSpeed := 0.0))
  }

  lemma GainOfInverse(t: Task, d: real)
    requires 0.0 < t.acceleration
    ensures Gain(t.acceleration, InvTwoAccel(t) * d) == d
  {
    assert 2.0 * t.acceleration * InvTwoAccel(t) == 1.0;
    assert 2.0 * t.acceleration * (InvTwoAccel(t) * d) == (2.0 * t.acceleration * InvTwoAccel(t)) * d;
  }

  lemma GainMonotone(a: real, d: real, d': real)
    requires 0.0 < a
    ensures Gain(a, d) < Gain(a, d') <==> d < d'
    ensures Gain(a, d) == Gain(a, d') <==> d == d'
    ensures Gain(a, 0.0) == 0.0
  {
    if d < d' {
      GainSum(a, d, d' - d);
      assert 0.0 < 2.0 * a * (d' - d);
    } else if d' < d {
      GainSum(a, d', d - d');
      assert 0.0 < 2.0 * a * (d - d');
    }
  }

  lemma GainSum(a: real, d: real, e: real)
    ensures Gain(a, d + e) == Gain(a, d) + Gain(a, e)
  {
  }

  /** Speeds, being non-negative, compare as their squares do. */
  lemma SpeedsCompare(u: real, v: real)
    requires 0.0 <= u && 0.0 <= v
    ensures Sqr(u) <= Sqr(v) <==> u <= v
    ensures Sqr(u) == Sqr(v) <==> u == v
  {
    if u < v {
      SqrStrict(u, v);
    } else if v < u {
      SqrStrict(v, u);
    }
  }

  lemma SqrStrict(u: real, v: real)
    requires 0.0 <= u < v
    ensures Sqr(u) < Sqr(v)
  {
    var d := v - u;
    assert v == u + d && 0.0 < d * d && 0.0 <= u * d;
    assert (u + d) * (u + d) == u * u + 2.0 * (u * d) + d * d;
  }

  /** The intersection, told by the squared speed gained up to it. */
  lemma GainToIntersection(t: Task)
    requires 0.0 < t.acceleration
    ensures 2.0 * Gain(t.acceleration, Intersection(t)) == Gain(t.acceleration, t.millimeters) + t.entrySqr - t.exitSqr
    ensures Gain(t.acceleration, t.millimeters - InvTwoAccel(t) * (Sqr(t.nominalSpeed) - t.entrySqr))
         == Gain(t.acceleration, t.millimeters) - Sqr(t.nominalSpeed) + t.entrySqr
  {
    var a, d := t.acceleration, InvTwoAccel(t) * (t.entrySqr - t.exitSqr);
    GainOfInverse(t, t.entrySqr - t.exitSqr);
    GainSum(a, t.millimeters, d);
    assert 2.0 * Intersection(t) == t.millimeters + d;
    GainSum(a, Intersection(t), Intersection(t));
    var e := InvTwoAccel(t) * (Sqr(t.nominalSpeed) - t.entrySqr);
    GainOfInverse(t, Sqr(t.nominalSpeed) - t.entrySqr);
    GainSum(a, t.millimeters - e, e);
  }

  /** The peak of a profile that has one, and the order of its ramps. */
  predicate Ordered(p: Profile, t: Task, ramp: Ramp) {
    ramp != Decelerating ==>
      && p.maximumSpeed <= t.nominalSpeed
      && (AccelerationOnly(p) || 0.0 <= p.decelerateAfter <= p.accelerateUntil <= t.millimeters)
  }

  /** Whether the nominal speed is reached, and braking from it has room after the acceleration. */
  predicate ReachesNominal(t: Task)
    requires 0.0 < t.acceleration
  {
    0.0 < Intersection(t) < t.millimeters && NominalBraking(t) < Intersection(t)
  }

  lemma BrakingDistance(t: Task)
    requires Reachable(t)
    ensures var d := InvTwoAccel(t) * (Sqr(t.nominalSpeed) - t.exitSqr);
            0.0 <= d && Gain(t.acceleration, d) == Sqr(t.nominalSpeed) - t.exitSqr
  {
    var d := InvTwoAccel(t) * (Sqr(t.nominalSpeed) - t.exitSqr);
    GainOfInverse(t, Sqr(t.nominalSpeed) - t.exitSqr);
    GainMonotone(t.acceleration, d, 0.0);
  }

  /** The acceleration ends after the braking begins to be needed, and takes some of the block. */
  lemma AccelerationEnds(t: Task)
    requires Reachable(t) && ReachesNominal(t)
    ensures var until := t.millimeters - InvTwoAccel(t) * (Sqr(t.nominalSpeed) - t.entrySqr);
            && Gain(t.acceleration, until) == Gain(t.acceleration, t.millimeters) - Sqr(t.nominalSpeed) + t.entrySqr
            && InvTwoAccel(t) * (Sqr(t.nominalSpeed) - t.exitSqr) <= until <= t.millimeters
  {
    var a, after := t.acceleration, InvTwoAccel(t) * (Sqr(t.nominalSpeed) - t.exitSqr);
    var until := t.millimeters - InvTwoAccel(t) * (Sqr(t.nominalSpeed) - t.entrySqr);
    GainToIntersection(t);
    BrakingDistance(t);
    GainMonotone(a, after, Intersection(t));
    GainMonotone(a, until, after);
    GainMonotone(a, until, t.millimeters);
  }

  lemma TrapezoidOnProfile(t: Task, root: real -> real, previous: Profile, v: real)
    requires SquareRoot(root) && Reachable(t) && 0.0 <= v && Sqr(v) == t.entrySqr && ReachesNominal(t)
    ensures var (ramp, p) := Normal(t, root, previous);
            OnProfile(p, t.acceleration, Motion(ramp, t.millimeters, v)) && Ordered(p, t, ramp)
  {
    BrakingDistance(t);
    AccelerationEnds(t);
    SpeedsCompare(v, t.nominalSpeed);
    assert Sqr(RootOf(root, t.exitSqr)) == t.exitSqr;
  }

  /** A triangle peaks at the intersection, within the nominal speed. */
  lemma PeakSpeed(t: Task, root: real -> real)
    requires SquareRoot(root) && Reachable(t)
    requires 0.0 < Intersection(t) <= InvTwoAccel(t) * (Sqr(t.nominalSpeed) - t.exitSqr)
    ensures var peak := RootOf(root, 2.0 * t.acceleration * Intersection(t) + t.exitSqr);
            0.0 < peak <= t.nominalSpeed && Sqr(peak) == Gain(t.acceleration, Intersection(t)) + t.exitSqr
  {
    var a, after := t.acceleration, InvTwoAccel(t) * (Sqr(t.nominalSpeed) - t.exitSqr);
    var peakSqr := 2.0 * a * Intersection(t) + t.exitSqr;
    BrakingDistance(t);
    GainMonotone(a, 0.0, Intersection(t));
    GainMonotone(a, Intersection(t), after);
    assert peakSqr == Gain(a, Intersection(t)) + t.exitSqr;
    assert Sqr(RootOf(root, peakSqr)) == peakSqr;
    SpeedsCompare(RootOf(root, peakSqr), t.nominalSpeed);
    SpeedsCompare(RootOf(root, peakSqr), 0.0);
  }

  lemma TriangleOnProfile(t: Task, root: real -> real, previous: Profile, v: real)
    requires SquareRoot(root) && Reachable(t) && 0.0 <= v && Sqr(v) == t.entrySqr
    requires 0.0 < Intersection(t) < t.millimeters && !ReachesNominal(t)
    ensures var (ramp, p) := Normal(t, root, previous);
            OnProfile(p, t.acceleration, Motion(ramp, t.millimeters, v)) && Ordered(p, t, ramp)
  {
    GainToIntersection(t);
    PeakSpeed(t, root);
    assert Sqr(RootOf(root, t.exitSqr)) == t.exitSqr;
  }

  lemma OneRampOnProfile(t: Task, root: real -> real, previous: Profile, v: real)
    requires SquareRoot(root) && Reachable(t) && 0.0 <= v && Sqr(v) == t.entrySqr
    requires Intersection(t) <= 0.0 || t.millimeters <= Intersection(t)
    ensures var (ramp, p) := Normal(t, root, previous);
            OnProfile(p, t.acceleration, Motion(ramp, t.millimeters, v)) && Ordered(p, t, ramp)
  {
    var (ramp, p) := Normal(t, root, previous);
    var a := t.acceleration;
    GainToIntersection(t);
    GainMonotone(a, 0.0, t.millimeters);
    GainMonotone(a, Intersection(t), 0.0);
    GainMonotone(a, Intersection(t), t.millimeters);
    assert Sqr(p.exitSpeed) == t.exitSqr;
    SpeedsCompare(p.exitSpeed, t.nominalSpeed);
    SpeedsCompare(p.exitSpeed, 0.0);
  }

  /**
   A profile laid out for speeds the planner may ask for passes through the entry speed, keeps its ramps
   in order and its peak within the nominal speed, and is heading for exactly the planned exit speed.
   */
  lemma NormalOnProfile(t: Task, root: real -> real, previous: Profile, v: real)
    requires SquareRoot(root) && Reachable(t) && 0.0 <= v && Sqr(v) == t.entrySqr
    ensures var (ramp, p) := Normal(t, root, previous);
            && OnProfile(p, t.acceleration, Motion(ramp, t.millimeters, v))
            && Ordered(p, t, ramp)
            && p.mmComplete == 0.0 && Sqr(p.exitSpeed) == t.exitSqr
  {
    if Intersection(t) <= 0.0 || t.millimeters <= Intersection(t) {
      OneRampOnProfile(t, root, previous, v);
    } else if ReachesNominal(t) {
      TrapezoidOnProfile(t, root, previous, v);
    } else {
      TriangleOnProfile(t, root, previous, v);
    }
    var p := Normal(t, root, previous).1;
    assert Sqr(RootOf(root, t.exitSqr)) == t.exitSqr;
  }

  /** Where a feed hold comes to rest, and how fast it leaves a block it cannot stop in. */
  lemma StoppingDistance(t: Task)
    requires 0.0 < t.acceleration && 0.0 <= t.entrySqr
    ensures var stop := t.millimeters - InvTwoAccel(t) * t.entrySqr;
            && Gain(t.acceleration, t.millimeters - stop) == t.entrySqr
            && stop <= t.millimeters
            && (0.0 <= stop <==> t.entrySqr <= Gain(t.acceleration, t.millimeters))
  {
    var a, d := t.acceleration, InvTwoAccel(t) * t.entrySqr;
    GainOfInverse(t, t.entrySqr);
    GainMonotone(a, d, t.millimeters);
    GainMonotone(a, 0.0, d);
    GainMonotone(a, d, 0.0);
    assert t.millimeters - (t.millimeters - d) == d;
  }

  /**
   A feed hold brakes at the block's acceleration: to a stop within the block exactly when its speed allows
   that, and otherwise through the whole block.
   */
  lemma HoldOnProfile(t: Task, root: real -> real, previous: Profile, v: real)
    requires SquareRoot(root) && 0.0 < t.acceleration && 0.0 < t.millimeters && 0.0 <= v && Sqr(v) == t.entrySqr
    ensures var (ramp, p) := Hold(t, root, previous);
            && OnProfile(p, t.acceleration, Motion(ramp, t.millimeters, v))
            && ramp == Decelerating
            && if t.entrySqr <= Gain(t.acceleration, t.millimeters) then p.exitSpeed == 0.0
               else p.mmComplete == 0.0 && Sqr(p.exitSpeed) == t.entrySqr - Gain(t.acceleration, t.millimeters)
  {
    StoppingDistance(t);
    var x := t.entrySqr - 2.0 * t.acceleration * t.millimeters;
    assert x == t.entrySqr - Gain(t.acceleration, t.millimeters);
    if 0.0 <= x {
      assert Sqr(RootOf(root, x)) == x;
    }
  }
}
