/**
 A velocity profile runs as fast as it may: at every distance from the end of the block the squared speed is the least
 of what can be gained from the entry, what can be lost before the exit, and the nominal speed. Motions keep to it.
 */
module Fastest {
  import opened Blocks
  import opened Profile
  import opened Segment
  import opened PlannerQueue
  import opened Execution

  /** The greatest squared speed at distance `d` from the end that entry, exit and nominal speed allow. */
  function Fastest(t: Task, d: real): real {
    Min(t.entrySqr + Gain(t.acceleration, t.millimeters - d),
        Min(Sqr(t.nominalSpeed), t.exitSqr + Gain(t.acceleration, d)))
  }

  /** The squared speed of a profile there. It begins with `ramp`; one that begins braking has no other ramp. */
  function SpeedSqr(p: Profile, ramp: Ramp, a: real, d: real): real {
    if ramp == Decelerating then Sqr(p.exitSpeed) + Gain(a, d)
    else if p.accelerateUntil <= d then Sqr(p.maximumSpeed) + Gain(a, p.accelerateUntil) - Gain(a, d)
    else if p.decelerateAfter <= d then Sqr(p.maximumSpeed)
    else Sqr(p.exitSpeed) + Gain(a, d)
  }

  /** What a profile laid out for a task is. */
  ghost predicate LaidFor(p: Profile, ramp: Ramp, t: Task) {
    && 0.0 < t.acceleration && p.mmComplete == 0.0
    && (ramp != Decelerating ==>
          AccelerationOnly(p) || (0.0 <= p.decelerateAfter <= p.accelerateUntil && Brakes(p, t.acceleration)))
    && forall d: real :: 0.0 <= d <= t.millimeters ==> SpeedSqr(p, ramp, t.acceleration, d) == Fastest(t, d)
  }

  lemma GainBetween(a: real, mm: real, d: real)
    requires 0.0 < a && 0.0 <= d <= mm
    ensures 0.0 <= Gain(a, d) <= Gain(a, mm)
    ensures Gain(a, mm - d) == Gain(a, mm) - Gain(a, d)
  {
    GainDifference(a, mm, d);
    GainMonotone(a, 0.0, d);
    GainMonotone(a, d, mm);
  }

  /** A block that is accelerated or braked throughout. */
  lemma OneRampIsFastest(t: Task, root: real -> real, previous: Profile, d: real)
    requires SquareRoot(root) && Reachable(t) && 0.0 <= d <= t.millimeters
    requires Intersection(t) <= 0.0 || t.millimeters <= Intersection(t)
    ensures var (ramp, p) := Normal(t, root, previous); SpeedSqr(p, ramp, t.acceleration, d) == Fastest(t, d)
  {
    var a := t.acceleration;
    GainToIntersection(t);
    GainMonotone(a, 0.0, t.millimeters);
    GainMonotone(a, Intersection(t), 0.0);
    GainMonotone(a, Intersection(t), t.millimeters);
    GainBetween(a, t.millimeters, d);
    assert Sqr(RootOf(root, t.exitSqr)) == t.exitSqr;
    hide Gain, Sqr, Intersection, NominalBraking;
  }

  /** Acceleration, a time at the nominal speed unless the ramps meet below it, and braking. */
  lemma RampsAreFastest(p: Profile, ramp: Ramp, t: Task, d: real)
    requires Reachable(t) && 0.0 <= d <= t.millimeters && ramp != Decelerating
    requires p.decelerateAfter <= p.accelerateUntil && Brakes(p, t.acceleration) && Sqr(p.exitSpeed) == t.exitSqr
    requires Sqr(p.maximumSpeed) + Gain(t.acceleration, p.accelerateUntil)
          == t.entrySqr + Gain(t.acceleration, t.millimeters)
    requires Sqr(p.maximumSpeed) <= Sqr(t.nominalSpeed)
    requires p.decelerateAfter == p.accelerateUntil || p.maximumSpeed == t.nominalSpeed
    ensures SpeedSqr(p, ramp, t.acceleration, d) == Fastest(t, d)
  {
    var a := t.acceleration;
    GainBetween(a, t.millimeters, d);
    GainMonotone(a, p.decelerateAfter, d);
    GainMonotone(a, p.accelerateUntil, d);
    GainMonotone(a, p.accelerateUntil, p.decelerateAfter);
    hide Gain, Sqr;
  }

  lemma NominalFacts(t: Task)
    requires Reachable(t) && ReachesNominal(t)
    ensures 0.0 <= NominalBraking(t) <= NominalReached(t)
    ensures Sqr(t.nominalSpeed) == t.exitSqr + Gain(t.acceleration, NominalBraking(t))
    ensures Sqr(t.nominalSpeed) + Gain(t.acceleration, NominalReached(t))
         == t.entrySqr + Gain(t.acceleration, t.millimeters)
  {
    BrakingDistance(t);
    AccelerationEnds(t);
  }

  /** A block in which the nominal speed is reached. */
  lemma TrapezoidIsFastest(t: Task, root: real -> real, previous: Profile, d: real)
    requires SquareRoot(root) && Reachable(t) && 0.0 <= d <= t.millimeters && ReachesNominal(t)
    ensures var (ramp, p) := Normal(t, root, previous); SpeedSqr(p, ramp, t.acceleration, d) == Fastest(t, d)
  {
    NominalFacts(t);
    assert Sqr(RootOf(root, t.exitSqr)) == t.exitSqr;
    hide Gain, Sqr, Intersection, InvTwoAccel, SpeedSqr, Fastest, NominalBraking, NominalReached;
    var (ramp, p) := Normal(t, root, previous);
    RampsAreFastest(p, ramp, t, d);
  }

  lemma TriangleFacts(t: Task, root: real -> real)
    requires SquareRoot(root) && Reachable(t) && 0.0 < Intersection(t) < t.millimeters && !ReachesNominal(t)
    ensures Sqr(RootOf(root, PeakSqr(t))) == t.exitSqr + Gain(t.acceleration, Intersection(t)) <= Sqr(t.nominalSpeed)
    ensures 2.0 * Gain(t.acceleration, Intersection(t)) == Gain(t.acceleration, t.millimeters) + t.entrySqr - t.exitSqr
  {
    PeakSpeed(t, root);
    GainToIntersection(t);
    SpeedsCompare(RootOf(root, PeakSqr(t)), t.nominalSpeed);
  }

  /** A block in which the ramps meet below the nominal speed. */
  lemma TriangleIsFastest(t: Task, root: real -> real, previous: Profile, d: real)
    requires SquareRoot(root) && Reachable(t) && 0.0 <= d <= t.millimeters
    requires 0.0 < Intersection(t) < t.millimeters && !ReachesNominal(t)
    ensures var (ramp, p) := Normal(t, root, previous); SpeedSqr(p, ramp, t.acceleration, d) == Fastest(t, d)
  {
    TriangleFacts(t, root);
    assert Sqr(RootOf(root, t.exitSqr)) == t.exitSqr;
    hide Gain, Sqr, Intersection, InvTwoAccel, SpeedSqr, Fastest, NominalBraking, NominalReached, PeakSqr;
    var (ramp, p) := Normal(t, root, previous);
    RampsAreFastest(p, ramp, t, d);
  }

  /**
   A profile laid out for speeds the planner may ask for is at every point of the block as fast as entry, exit and
   nominal speed allow.
   */
  lemma NormalIsFastest(t: Task, root: real -> real, previous: Profile, d: real)
    requires SquareRoot(root) && Reachable(t) && 0.0 <= d <= t.millimeters
    ensures var (ramp, p) := Normal(t, root, previous); SpeedSqr(p, ramp, t.acceleration, d) == Fastest(t, d)
  {
    if Intersection(t) <= 0.0 || t.millimeters <= Intersection(t) {
      OneRampIsFastest(t, root, previous, d);
    } else if ReachesNominal(t) {
      TrapezoidIsFastest(t, root, previous, d);
    } else {
      TriangleIsFastest(t, root, previous, d);
    }
  }

  lemma NormalIsLaid(t: Task, root: real -> real, previous: Profile)
    requires SquareRoot(root) && Reachable(t)
    ensures var (ramp, p) := Normal(t, root, previous); LaidFor(p, ramp, t)
  {
    var (ramp, p) := Normal(t, root, previous);
    var v := RootOf(root, t.entrySqr);
    assert 0.0 <= v && Sqr(v) == t.entrySqr;
    NormalOnProfile(t, root, previous, v);
    hide Normal, SpeedSqr, Fastest;
    forall d: real | 0.0 <= d <= t.millimeters
      ensures SpeedSqr(p, ramp, t.acceleration, d) == Fastest(t, d)
    {
      NormalIsFastest(t, root, previous, d);
    }
  }

  // ---------------------------------------------------------------------------------------------
  // Motions keep to it

  /** The motion is on the part of the profile its ramp is for. `first` is the ramp the profile begins with. */
  predicate Placed(p: Profile, first: Ramp, ramp: Ramp, mm: real) {
    match ramp
    case Accelerating => first != Decelerating
    case Cruising => first != Decelerating && mm <= p.accelerateUntil
    case Decelerating => first == Decelerating || if AccelerationOnly(p) then mm == 0.0 else mm <= p.decelerateAfter
  }

  /** A motion on its profile and in its place is at the speed of the profile. */
  lemma PlacedIsFastest(p: Profile, first: Ramp, t: Task, m: Motion)
    requires LaidFor(p, first, t) && OnProfile(p, t.acceleration, m) && Placed(p, first, m.ramp, m.mm)
    requires m.mm <= t.millimeters
    ensures Sqr(m.speed) == Fastest(t, m.mm)
  {
    var a := t.acceleration;
    assert SpeedSqr(p, first, a, m.mm) == Fastest(t, m.mm);
    assert m.mm - 0.0 == m.mm;
    GainMonotone(a, m.mm, p.accelerateUntil);
    hide Gain, Sqr, Fastest;
  }

  /** What holds around every pass; the current ramp is followed from `bound` on. */
  predicate InPlace(p: Profile, first: Ramp, minimumMm: real, m: Motion, c: Clock, bound: real) {
    && p.mmComplete == 0.0 <= bound && 0.0 <= minimumMm
    && Placed(p, first, m.ramp, bound)
    && (0.0 < c.timeVar || minimumMm < bound)
    && (m.mm <= bound || minimumMm < bound)
  }

  lemma PassKeepsPlace(
      p: Profile, a: real, start: real, first: Ramp, minimumMm: real, m: Motion, c: Clock, bound: real)
    requires Ready(p, a, m, c) && InPlace(p, first, minimumMm, m, c, bound)
    ensures var (m', time) := Pass(p, a, start, m, c.timeVar);
            var bound' := if m'.ramp == m.ramp then bound else m'.mm;
            && OnProfile(p, a, m')
            && 0.0 <= bound' && Placed(p, first, m'.ramp, bound')
            && (m'.mm <= bound' || minimumMm < bound')
            && (!Done(p, minimumMm, m', c, time) ==> InPlace(p, first, minimumMm, m', Tick(c, time), bound'))
  {
    PassKeepsReady(p, a, start, m, c);
    PassMoves(p, a, start, m, c.timeVar);
    hide Gain, Sqr, SpeedGain, Covered, PassesLeft;
  }

  lemma {:induction false} FollowKeepsPlace(
      p: Profile, a: real, start: real, first: Ramp, minimumMm: real, m: Motion, c: Clock, bound: real)
    requires Ready(p, a, m, c) && InPlace(p, first, minimumMm, m, c, bound)
    ensures var m' := Follow(p, a, start, minimumMm, m, c); OnProfile(p, a, m') && Placed(p, first, m'.ramp, m'.mm)
    decreases Stage(m.ramp), if c.timeVar == DT_SEGMENT then 0 else 1, PassesLeft(p, a, m)
  {
    PassKeepsReady(p, a, start, m, c);
    PassKeepsPlace(p, a, start, first, minimumMm, m, c, bound);
    var (m', time) := Pass(p, a, start, m, c.timeVar);
    if !Done(p, minimumMm, m', c, time) {
      FollowKeepsPlace(p, a, start, first, minimumMm, m', Tick(c, time), if m'.ramp == m.ramp then bound else m'.mm);
    }
  }

  /** Although a pass may run backward, a segment ends where the profile is as fast as it may be. */
  lemma SegmentIsFastest(p: Profile, first: Ramp, t: Task, from: Motion, minimumMm: real)
    requires LaidFor(p, first, t) && Ready(p, t.acceleration, from, FRESH_CLOCK) && Placed(p, first, from.ramp, from.mm)
    requires 0.0 <= minimumMm < from.mm <= t.millimeters
    ensures var m := SegmentOf(p, t.acceleration, from, minimumMm);
            Placed(p, first, m.ramp, m.mm) && Sqr(m.speed) == Fastest(t, m.mm)
  {
    var a := t.acceleration;
    SegmentEnds(p, a, from, minimumMm);
    FollowKeepsPlace(p, a, from.mm, first, minimumMm, from, FRESH_CLOCK, from.mm);
    PlacedIsFastest(p, first, t, SegmentOf(p, a, from, minimumMm));
  }

  // ---------------------------------------------------------------------------------------------
  // Runs

  /** What the block in execution was last profiled for, and the ramp its profile begins with. */
  datatype Course = Course(task: Task, first: Ramp)

  ghost function CourseAt(states: seq<State>, events: seq<Event>, i: nat): Course
    requires i <= |events| < |states|
  {
    if i == 0 then Course(Task(0.0, 0.0, 0.0, 0.0, 0.0), Accelerating)
    else if events[i - 1] == Load && 0 < |states[i].queue.blocks| then Course(TaskOf(states[i].queue), states[i].ramp)
    else CourseAt(states, events, i - 1)
  }

  /** Outside of holds the block in execution is run at the fastest. */
  ghost predicate InTime(s: State, c: Course) {
    s.queue.loaded && !s.holding ==>
      && 0 < |s.queue.blocks| && s.queue.blocks[0].acceleration == c.task.acceleration
      && s.queue.blocks[0].nominalSpeed == c.task.nominalSpeed && Sqr(s.profile.exitSpeed) == c.task.exitSqr
      && 0.0 < s.queue.blocks[0].millimeters <= c.task.millimeters
      && Reachable(c.task) && LaidFor(s.profile, c.first, c.task)
      && Placed(s.profile, c.first, s.ramp, s.queue.blocks[0].millimeters)
  }

  lemma LoadInTime(s: State, root: real -> real)
    requires SquareRoot(root) && Good(s) && Enabled(s, Load)
    ensures Loadable(s)
    ensures var l := Loaded(s, root); 0 < |l.queue.blocks| && InTime(l, Course(TaskOf(l.queue), l.ramp))
  {
    LoadKeeps(s, root);
    if !s.holding {
      var q := s.queue;
      var f := if q.recalculate then s.(queue := q.(recalculate := false, loaded := true)) else Fresh(s, root);
      if q.recalculate {
        TakenUpKeeps(s);
      } else {
        FreshKeeps(s, root);
      }
      FastAgain(f, root);
    }
  }

  lemma FastAgain(f: State, root: real -> real)
    requires SquareRoot(root) && Sound(f.queue) && Optimal(f.queue) && f.queue.loaded && !f.holding
    requires f.queue.blocks[0].entrySqr == TailSqr(f.queue)
    ensures 0.0 < f.queue.blocks[0].acceleration
    ensures var l := ProfiledFor(f, root);
            l.queue == f.queue && l.holding == f.holding && InTime(l, Course(TaskOf(l.queue), l.ramp))
  {
    PlanIsReachable(f.queue);
    NormalIsLaid(TaskOf(f.queue), root, f.profile);
    assert Sqr(RootOf(root, ExitSqr(f.queue))) == ExitSqr(f.queue);
    hide LaidFor, Optimal, Sound, Reachable;
  }

  lemma CutInTime(s: State, c: Course)
    requires Good(s) && Enabled(s, CutSegment) && InTime(s, c)
    ensures Cuttable(s) && InTime(Cut(s), c)
  {
    SegmentFacts(s);
    SegmentSteps(s);
    CourseIsCuttable(s);
    if !s.holding {
      SegmentIsFastest(s.profile, c.first, c.task, Motion0(s), MinimumMm(s));
      hide Good, Cuttable, LaidFor, Reachable, SegmentOf, NextSteps, MinimumMm;
    }
  }

  lemma AppendInTime(s: State, target: Steps, g: Geometry, c: Course)
    requires Good(s) && Enabled(s, Append(target, g)) && InTime(s, c)
    ensures InTime(WithMove(s, target, g), c)
  {
    if target != s.queue.position && s.queue.loaded {
      QueuedForMove(s.queue, target, g);
      AppendedShape(s.queue, target, g);
      hide Good, Appended, LaidFor, Placed, RecordOf, MoveBetween, Sound;
      assert SameButEntry(s.queue.blocks[0], Appended(s.queue, target, g).blocks[..|s.queue.blocks|][0]);
    } else if target != s.queue.position {
      AppendedShape(s.queue, target, g);
    }
  }

  lemma NextInTime(s: State, e: Event, root: real -> real, c: Course)
    requires SquareRoot(root) && Good(s) && Enabled(s, e) && InTime(s, c)
    ensures Can(s, e)
    ensures var n := Next(s, e, root);
            InTime(n, if e == Load && 0 < |n.queue.blocks| then Course(TaskOf(n.queue), n.ramp) else c)
  {
    NextKeeps(s, e, root);
    hide Good, InTime, Reachable, LaidFor;
    match e
    case Append(target, g) => AppendInTime(s, target, g, c);
    case Load => LoadInTime(s, root);
    case CutSegment => CutInTime(s, c);
    case FeedHold => NotInTime(Held(s), c);
    case CycleStop =>
      StopUnloads(s);
      NotInTime(Stopped(s), c);
    case Resume => SameInTime(s, s.(ended := false), c);
  }

  lemma NotInTime(s: State, c: Course)
    requires s.holding || !s.queue.loaded
    ensures InTime(s, c)
  {
  }

  lemma StopUnloads(s: State)
    requires Good(s)
    ensures !Stopped(s).queue.loaded
  {
    ReinitializedShape(s.queue);
  }

  lemma SameInTime(s: State, s': State, c: Course)
    requires InTime(s, c) && s' == s.(ended := s'.ended)
    ensures InTime(s', c)
  {
  }

  lemma {:induction false} RunIsInTime(states: seq<State>, events: seq<Event>, root: real -> real, i: nat)
    requires SquareRoot(root) && Run(states, events, root) && i < |states|
    ensures Good(states[i]) && InTime(states[i], CourseAt(states, events, i))
  {
    hide Good, Can, Enabled, Next, InTime;
    RunIsGood(states, events, root, i);
    if i == 0 {
      NotInTime(states[0], CourseAt(states, events, 0));
    } else {
      RunIsInTime(states, events, root, i - 1);
      assert Follows(states, events, root, i - 1);
      NextInTime(states[i - 1], events[i - 1], root, CourseAt(states, events, i - 1));
    }
  }

  /**
   In every run, outside of holds, the motion is at the end of every segment exactly as fast as the speeds planned for
   the block, its acceleration and its nominal speed allow.
   */
  lemma RunsAreFastest(states: seq<State>, events: seq<Event>, root: real -> real, i: nat)
    requires SquareRoot(root) && Run(states, events, root) && i < |states|
    requires states[i].queue.loaded && !states[i].holding
    ensures var q, t := states[i].queue, CourseAt(states, events, i).task;
            && 0 < |q.blocks| && 0.0 < q.blocks[0].millimeters <= t.millimeters
            && q.blocks[0].acceleration == t.acceleration && q.blocks[0].nominalSpeed == t.nominalSpeed
            && t.exitSqr == ExitSqr(q)
            && Sqr(q.speed) == Fastest(t, q.blocks[0].millimeters)
  {
    var c := CourseAt(states, events, i);
    RunIsInTime(states, events, root, i);
    PlacedIsFastest(states[i].profile, c.first, c.task, Motion0(states[i]));
  }
}
