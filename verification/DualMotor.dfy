/**
 The second motor of the X axis. What is left in its step bit when the timer goes off is put out again when the timer
 is switched on, since only the bits of the axes are cleared then.
 */
module DualMotor {
  import opened Blocks
  import opened PlannerQueue
  import opened Profile
  import S = Segment
  import opened Bresenham
  import opened Tracer
  import opened SegmentRings
  import opened Machine
  import opened Pipeline
  import opened Emission
  import Execution
  import M = Machine

  /** Both X motors have been driven equally far, counting the step the next interrupt puts out. */
  ghost predicate Together(ms: seq<Machine>, es: seq<Event>, i: nat)
    requires i <= |es| < |ms|
  {
    Driven(ms, es, i, X1) + Pending(ms[i].rings, X1) == Driven(ms, es, i, X2) + Pending(ms[i].rings, X2)
  }

  /** The timer has never been switched on with a step of the second motor left over. */
  predicate NoneLeftOver(ms: seq<Machine>, es: seq<Event>, i: nat)
    requires i <= |es| < |ms|
  {
    forall k :: 0 <= k < i && es[k] == WakeUp ==> !ms[k].rings.next.stepX2
  }

  /** The motors have been together up to an instant of a run exactly when nothing was left over at any time before. */
  lemma {:induction false} TogetherExactly(ms: seq<Machine>, es: seq<Event>, u: Setup, i: nat)
    requires SquareRoot(u.root) && Run(ms, es, u) && i < |ms|
    ensures (forall k :: 0 <= k <= i ==> Together(ms, es, k)) <==> NoneLeftOver(ms, es, i)
  {
    TogetherAt(ms, es, u, i);
    if 0 < i {
      TogetherExactly(ms, es, u, i - 1);
      TogetherAt(ms, es, u, i - 1);
      hide Together, Run;
      assert NoneLeftOver(ms, es, i)
        <==> NoneLeftOver(ms, es, i - 1) && (es[i - 1] == WakeUp ==> !ms[i - 1].rings.next.stepX2);
    }
  }

  lemma TogetherAt(ms: seq<Machine>, es: seq<Event>, u: Setup, i: nat)
    requires SquareRoot(u.root) && Run(ms, es, u) && i < |ms|
    ensures |ms| == |es| + 1 && (Together(ms, es, i) <==> Repeated(ms, es, i) == 0)
  {
    PinsDriveTheAxes(ms, es, u, i);
  }

  // ---------------------------------------------------------------------------------------------
  // What is left over

  /** The last tick of a block pulses an axis exactly when the axis has at least half a step in a tick. */
  lemma LastPulse(steps: nat, events: nat, units: nat, level: Level)
    requires steps <= events && 0 < events && units + Unit(level) == 8 * events
    ensures Pulses(steps, events, 8 * events) == Pulses(steps, events, units) + 1 <==> 4 * events <= steps * Unit(level)
  {
    Bresenham.TickTraces(steps, events, units, level);
    CounterInRange(steps, events, units);
    BlockIsExact(steps, events);
  }

  lemma LastTick(t: Ideal, remaining: nat, axis: Axis)
    requires Tracing(t, remaining) && t.pending != [] && Tracing(Tick(t), remaining)
    ensures var n := Tick(t);
            && 0 <= n.exec < |n.moves| && n.moves == t.moves && WellFormed(n.moves[n.exec])
            && var m := n.moves[n.exec];
               n.units == 8 * m.events ==>
                 (PulsesOf(n, n.exec, axis) == PulsesOf(t, n.exec, axis) + 1
                  <==> 4 * m.events <= StepsOn(m, axis) * Unit(t.pending[0].level))
  {
    var n, level := Tick(t), t.pending[0].level;
    var m := n.moves[n.exec];
    BeforeTick(t, remaining, axis);
    hide *;
    if n.units == 8 * m.events {
      LastPulse(StepsOn(m, axis), m.events, n.units - Unit(level), level);
    }
  }

  lemma BeforeTick(t: Ideal, remaining: nat, axis: Axis)
    requires Tracing(t, remaining) && t.pending != [] && Tracing(Tick(t), remaining)
    ensures var n, level := Tick(t), t.pending[0].level;
            && 0 <= n.exec < |n.moves| && n.moves == t.moves && WellFormed(n.moves[n.exec])
            && Unit(level) <= n.units
            && var m := n.moves[n.exec];
               && 0 < m.events && StepsOn(m, axis) <= m.events
               && PulsesOf(t, n.exec, axis) == Pulses(StepsOn(m, axis), m.events, n.units - Unit(level))
               && PulsesOf(n, n.exec, axis) == Pulses(StepsOn(m, axis), m.events, n.units)
  {
    var m := Tick(t).moves[Tick(t).exec];
    assert WellFormed(m);
    BlockIsExact(StepsOn(m, axis), m.events);
    hide Accounted, Pulses;
  }

  lemma FinishedUnits(t: Ideal, remaining: nat)
    requires Tracing(t, remaining) && t.left == 0 && 0 <= t.exec
    requires if t.pending == [] then remaining == 0 else t.pending[0].serial != t.exec
    ensures t.units == 8 * t.moves[t.exec].events
  {
    if t.pending == [] {
      DrainedIsFinished(t, X);
      assert Done(t, t.exec) + Tracer.Owed(t, t.exec) + Uncut(t, 0, t.exec) == 8 * t.moves[t.exec].events;
    } else {
      MoveIsFinished(t, remaining);
    }
  }

  lemma FinishedInUnits(m: Machine, t: Ideal, x0: int, y0: int)
    requires Coherent(m, t, x0, y0) && 0 <= t.exec && BlockFinished(m)
    ensures t.exec < |t.moves| && t.units == 8 * t.moves[t.exec].events
  {
    hide Accounted, Fits, BlocksLinked, CountersLinked, Position, Travel, Execution.OnCourse, Pulses;
    if m.rings.head != m.rings.tail {
      BeginLinked(m.rings, t, WorkOf(m.main).remaining, x0, y0);
    }
    FinishedUnits(t, WorkOf(m.main).remaining);
  }

  /**
   The tick that finishes a block leaves a step for the second motor exactly when the X axis has at least half a step
   in a tick of the last segment: that is at the two coarse levels, of a block that moves enough along X.
   */
  lemma LeftOverExactly(m: Machine, u: Setup, t: Ideal, x0: int, y0: int)
    requires SquareRoot(u.root) && Coherent(m, t, x0, y0) && M.Enabled(m, Interrupt, u) && Busy(m.rings)
    requires Sized(m.rings) && BlockFinished(m.(rings := SegmentRings.Interrupt(m.rings)))
    ensures var n, r' := Tick(t), SegmentRings.Interrupt(m.rings);
            && 0 <= n.exec < |n.moves|
            && (r'.next.stepX2 <==>
                4 * n.moves[n.exec].events <= n.moves[n.exec].stepsX * Unit(m.rings.segments[m.rings.tail].level))
  {
    var r, r', remaining := m.rings, SegmentRings.Interrupt(m.rings), WorkOf(m.main).remaining;
    InterruptInStep(WorkOf(m.main), r, t, x0, y0);
    InterruptPulses(r, t, remaining, x0, y0);
    hide PulsesSteps, SegmentRings.Interrupt, M.Enabled, Tick, BlockFinished, Busy, AllMoves, Execution.Good, Linked;
    TickMakes(r, r', t, remaining, x0, y0, X2);
    LastTickLinked(r, r', t, remaining, x0, y0);
    FinishedInUnits(m.(rings := r'), Tick(t), x0, y0);
  }

  lemma LastTickLinked(r: Rings, r': Rings, t: Ideal, remaining: nat, x0: int, y0: int)
    requires Linked(r, t, remaining, x0, y0) && Linked(r', Tick(t), remaining, x0, y0) && Busy(r)
    ensures t.pending != [] && r.segments[r.tail].level == t.pending[0].level
    ensures var n := Tick(t);
            && 0 <= n.exec < |n.moves| && n.moves == t.moves && WellFormed(n.moves[n.exec])
            && var m := n.moves[n.exec];
               n.units == 8 * m.events ==>
                 (PulsesOf(n, n.exec, X) == PulsesOf(t, n.exec, X) + 1
                  <==> 4 * m.events <= m.stepsX * Unit(t.pending[0].level))
  {
    SomePending(r, t, remaining, x0, y0);
    FrontBlock(r, t, remaining, x0, y0);
    hide Tracing, Fits, SegmentsLinked, BlocksLinked, CountersLinked, Position, Travel, Tick, Busy;
    LastTick(t, remaining, X);
  }

  /** So in every run: what is left over for the second motor is a matter of the last segment of a block. */
  lemma LeftOverThroughout(ms: seq<Machine>, es: seq<Event>, u: Setup, i: nat)
    requires SquareRoot(u.root) && Run(ms, es, u) && i < |es|
    requires es[i] == Interrupt && Busy(ms[i].rings) && BlockFinished(ms[i + 1])
    ensures var t, r, next := Traced(ms, es, i + 1), ms[i].rings, ms[i + 1].rings.next;
            && Sized(r) && 0 <= t.exec < |t.moves|
            && (next.stepX2 <==>
                4 * t.moves[t.exec].events <= t.moves[t.exec].stepsX * Unit(r.segments[r.tail].level))
  {
    hide Coherent, Linked, SegmentRings.Interrupt, Tick, BlockFinished, Busy;
    RunIsCoherent(ms, es, u, i);
    assert Follows(ms, es, u, i);
    NextCoherent(ms[i], Traced(ms, es, i), ms[0].rings.x, ms[0].rings.y, es[i], u);
    LeftOverExactly(ms[i], u, Traced(ms, es, i), ms[0].rings.x, ms[0].rings.y);
  }

  // ---------------------------------------------------------------------------------------------
  // A run in which the second motor makes a step too many

  const ONE_STEP := Move(1, 0, 0, 1, false, false)

  /** One step along X, and the timer switched on once more. */
  function OneStepTwice(g: Geometry): seq<Event> {
    [Line(Point(1.0, 0.0, 0.0), g), Load, CutSegment(0), WakeUp, Interrupt, Interrupt, WakeUp, Interrupt]
  }

  /** The record of it. */
  function OneStepBlock(g: Geometry): Block {
    Block(ONE_STEP, 0.0, 0.0, g.acceleration, g.millimeters, g.nominalSpeed)
  }

  lemma StepIsQueued(m: Machine, g: Geometry, u: Setup)
    requires Starts(m) && m.main.queue.position == Steps(0, 0, 0) && u.scale == Point(1.0, 1.0, 1.0) && Physical(g)
    ensures var e := Line(Point(1.0, 0.0, 0.0), g);
            && M.Enabled(m, e, u) && M.Can(m, e, u)
            && var n := M.Next(m, e, u);
               && n.rings == m.rings && n.main.queue.blocks == [OneStepBlock(g)]
               && !n.main.queue.loaded && !n.main.queue.recalculate && !n.main.holding && !n.main.ended
  {
    ToOneStep(u.scale);
    OneStepAppended(g);
    hide StepsOf, MoveBetween, Appended, Sqr;
  }

  lemma ToOneStep(scale: Point)
    requires scale == Point(1.0, 1.0, 1.0)
    ensures StepsOf(Point(1.0, 0.0, 0.0), scale) == Steps(1, 0, 0)
    ensures MoveBetween(Steps(0, 0, 0), Steps(1, 0, 0)) == ONE_STEP
  {
  }

  lemma OneStepAppended(g: Geometry)
    requires Physical(g)
    ensures var q := Appended(Execution.AT_REST.queue, Steps(1, 0, 0), g);
            q.blocks == [OneStepBlock(g)] && !q.loaded && !q.recalculate
  {
    SquareMonotone(0.0, g.nominalSpeed);
  }

  /** The block is loaded, and one segment takes all of it. */
  lemma StepIsCut(s: Execution.State, g: Geometry, root: real -> real)
    requires SquareRoot(root) && Execution.Good(s) && Physical(g) && s.queue.blocks == [OneStepBlock(g)]
    requires !s.queue.loaded && !s.queue.recalculate && !s.holding && !s.ended
    ensures Execution.Loadable(s)
    ensures var l := Execution.Loaded(s, root);
            Execution.Good(l) && l.queue.loaded && !l.ended && !l.holding && Execution.Cuttable(l)
            && Execution.NextSteps(l) == 1
  {
    Execution.LoadKeeps(s, root);
    var l := Execution.Loaded(s, root);
    Execution.CourseIsCuttable(l);
    Execution.SegmentFacts(l);
    S.SegmentEnds(l.profile, g.acceleration, Execution.Motion0(l), Execution.MinimumMm(l));
    Execution.SegmentSteps(l);
  }

  /** The rings once the block is loaded and its segment pushed. */
  function Filled(r: Rings): Rings
    requires Sized(r)
  {
    SegmentPushed(BlockLoaded(r, ONE_STEP), 1, 0)
  }

  const STEP_BITS := Pins(true, false, true, false, false, false)

  lemma RingsSized(r: Rings)
    requires Blank(r)
    ensures Sized(Filled(r)) && !Filled(r).running
  {
  }

  lemma StepWorkedOut(r: Rings)
    requires Blank(r)
    ensures var a := WokenUp(Filled(r));
            var b := SegmentRings.Interrupt(a);
            Sized(a) && a.running && Busy(a) && b.running && !Busy(b) && b.x == r.x + 1
            && b.next == STEP_BITS && b.pins == NO_PINS && Sized(b)
  {
    var a := WokenUp(Filled(r));
    assert a.segments[0] == Segment(1, 1, 0) && a.blocks[1] == StepBlock(8, 0, 8, false, false, false);
    var c := SegmentBegun(a.(pins := a.next));
    assert c.counterX == 4 == c.counterY && c.incrementX == 8 && c.incrementY == 0;
    hide SegmentBegun, Filled, WokenUp;
  }

  /** The step is put out, and put out for the second motor once more. */
  lemma StepTwice(b: Rings)
    requires Sized(b) && !Busy(b) && b.next == STEP_BITS
    ensures var c := SegmentRings.Interrupt(b);
            var d := SegmentRings.Interrupt(WokenUp(c));
            && !c.running && WokenUp(c).running && !Busy(WokenUp(c)) && Sized(c) && Sized(d)
            && b.x == c.x == d.x && c.pins == STEP_BITS && d.pins == STEP_BITS.(stepX := false)
  {
  }

  /** The state after the first `n` events. */
  ghost function After(m: Machine, es: seq<Event>, u: Setup, n: nat): Machine
    requires n <= |es|
  {
    if n == 0 then m
    else
      var p := After(m, es, u, n - 1);
      if M.Can(p, es[n - 1], u) then M.Next(p, es[n - 1], u) else p
  }

  ghost function States(m: Machine, es: seq<Event>, u: Setup): seq<Machine> {
    seq(|es| + 1, i requires 0 <= i <= |es| => After(m, es, u, i))
  }

  lemma StatesRun(m: Machine, es: seq<Event>, u: Setup)
    requires Starts(m) && forall i :: 0 <= i < |es| ==> M.Enabled(After(m, es, u, i), es[i], u)
    ensures Run(States(m, es, u), es, u)
  {
    hide M.Can, M.Next, M.Enabled;
    forall i | 0 <= i < |es|
      ensures Follows(States(m, es, u), es, u, i)
    {
    }
  }

  lemma StepIsLoaded(m: Machine, g: Geometry, u: Setup)
    requires SquareRoot(u.root) && Execution.Good(m.main) && Physical(g) && m.main.queue.blocks == [OneStepBlock(g)]
    requires !m.main.queue.loaded && !m.main.queue.recalculate && !m.main.holding && !m.main.ended
    requires Sized(m.rings) && SegmentCount(m.rings) == 0
    ensures M.Enabled(m, Load, u) && M.Can(m, Load, u)
    ensures var n := M.Next(m, Load, u);
            && M.Enabled(n, CutSegment(0), u) && M.Can(n, CutSegment(0), u)
            && M.Next(n, CutSegment(0), u).rings == Filled(m.rings)
  {
    Execution.NextKeeps(m.main, Execution.Load, u.root);
    StepIsCut(m.main, g, u.root);
    hide Execution.Good, Execution.Loaded, Execution.Cut, Execution.NextSteps, Execution.Cuttable, Execution.Loadable;
    hide BlockLoaded, SegmentPushed;
    assert SegmentCount(BlockLoaded(m.rings, ONE_STEP)) == 0 && Sized(BlockLoaded(m.rings, ONE_STEP)) by {
      LoadKeepsCount(m.rings);
    }
  }

  lemma LoadKeepsCount(r: Rings)
    requires Sized(r)
    ensures Sized(BlockLoaded(r, ONE_STEP)) && SegmentCount(BlockLoaded(r, ONE_STEP)) == SegmentCount(r)
  {
  }

  lemma Onward(m: Machine, es: seq<Event>, u: Setup, n: nat)
    requires n < |es| && M.Can(After(m, es, u, n), es[n], u)
    ensures After(m, es, u, n + 1) == M.Next(After(m, es, u, n), es[n], u)
  {
    hide M.Can, M.Next;
  }

  /** The main program's part: the step is queued, loaded and cut. */
  lemma StepIsPrepared(m: Machine, g: Geometry, u: Setup)
    requires SquareRoot(u.root) && Starts(m) && m.main.queue.position == Steps(0, 0, 0)
    requires u.scale == Point(1.0, 1.0, 1.0) && Physical(g)
    ensures var es := OneStepTwice(g);
            && M.Enabled(m, es[0], u) && M.Enabled(After(m, es, u, 1), es[1], u)
            && M.Enabled(After(m, es, u, 2), es[2], u) && After(m, es, u, 3).rings == Filled(m.rings)
  {
    hide *;
    hide SquareRoot, Starts, Physical, M.Can, M.Enabled, M.Next, InStep, Execution.Good, Run, After;
    var es := OneStepTwice(g);
    StepEvents(g);
    StepIsQueued(m, g, u);
    QueuedIsGood(m, es[0], u);
    AtFirst(m, es, u);
    Onward(m, es, u, 0);
    StepIsLoaded(After(m, es, u, 1), g, u);
    Onward(m, es, u, 1);
    Onward(m, es, u, 2);
  }

  lemma QueuedIsGood(m: Machine, e: Event, u: Setup)
    requires SquareRoot(u.root) && Starts(m) && M.Enabled(m, e, u)
    ensures M.Can(m, e, u) && Execution.Good(M.Next(m, e, u).main) && Sized(m.rings) && SegmentCount(m.rings) == 0
  {
    StartsCoherent(m);
    NextCoherent(m, NOT_BEGUN, m.rings.x, m.rings.y, e, u);
  }

  lemma StepEvents(g: Geometry)
    ensures var es := OneStepTwice(g);
            && |es| == 8 && es[0] == Line(Point(1.0, 0.0, 0.0), g) && es[1] == Load && es[2] == CutSegment(0)
            && es[3] == es[6] == WakeUp && es[4] == es[5] == es[7] == Interrupt
  {
  }

  /** What only the stepper sees: the main program stays as it is. */
  lemma RingsOnward(m: Machine, es: seq<Event>, u: Setup, n: nat)
    requires n < |es| && !OfMain(es[n]) && Sized(After(m, es, u, n).rings)
    ensures var r, r' := After(m, es, u, n).rings, After(m, es, u, n + 1).rings;
            && r' == (if es[n] == WakeUp then WokenUp(r) else SegmentRings.Interrupt(r))
            && (M.Enabled(After(m, es, u, n), es[n], u) <==> r.running == (es[n] == Interrupt))
  {
    hide SegmentRings.Interrupt;
  }

  /**
   From rest, with a move of a single step: the X axis moves by one step, its first motor is driven one step and its
   second motor two.
   */
  lemma SecondMotorStrays(m: Machine, g: Geometry, u: Setup)
    requires SquareRoot(u.root) && Starts(m) && m.main.queue.position == Steps(0, 0, 0)
    requires u.scale == Point(1.0, 1.0, 1.0) && Physical(g)
    ensures var es := OneStepTwice(g);
            var ms := States(m, es, u);
            && Run(ms, es, u) && ms[8].rings.x == m.rings.x + 1
            && Driven(ms, es, 8, X1) == 1 && Driven(ms, es, 8, X2) == 2
  {
    var es := OneStepTwice(g);
    hide Run, After, M.Can, M.Enabled, M.Next, Starts, SquareRoot, Physical, Blank;
    StepsOfTheRun(m, g, u);
    StatesRun(m, es, u);
    var ms := States(m, es, u);
    DrivenBy(ms, es, X1);
    DrivenBy(ms, es, X2);
  }

  lemma StepsOfTheRun(m: Machine, g: Geometry, u: Setup)
    requires SquareRoot(u.root) && Starts(m) && m.main.queue.position == Steps(0, 0, 0)
    requires u.scale == Point(1.0, 1.0, 1.0) && Physical(g)
    ensures var es := OneStepTwice(g);
            && (forall i :: 0 <= i < 8 ==> M.Enabled(After(m, es, u, i), es[i], u))
            && After(m, es, u, 5).rings.pins == NO_PINS && After(m, es, u, 6).rings.pins == STEP_BITS
            && After(m, es, u, 8).rings.pins == STEP_BITS.(stepX := false)
            && After(m, es, u, 8).rings.x == m.rings.x + 1
  {
    var es := OneStepTwice(g);
    hide M.Can, M.Enabled, M.Next, After, Starts, SquareRoot, Physical, Blank;
    StartsBlank(m);
    StepIsPrepared(m, g, u);
    StepOfTheRings(m, g, u);
    AtFirst(m, es, u);
  }

  lemma StartsBlank(m: Machine)
    requires Starts(m)
    ensures Blank(m.rings)
  {
  }

  lemma AtFirst(m: Machine, es: seq<Event>, u: Setup)
    ensures After(m, es, u, 0) == m
  {
  }

  lemma StepOfTheRings(m: Machine, g: Geometry, u: Setup)
    requires Blank(m.rings) && After(m, OneStepTwice(g), u, 3).rings == Filled(m.rings)
    ensures var es := OneStepTwice(g);
            && (forall i :: 3 <= i < 8 ==> M.Enabled(After(m, es, u, i), es[i], u))
            && After(m, es, u, 5).rings.pins == NO_PINS && After(m, es, u, 6).rings.pins == STEP_BITS
            && After(m, es, u, 8).rings.pins == STEP_BITS.(stepX := false)
            && After(m, es, u, 8).rings.x == m.rings.x + 1
  {
    var es := OneStepTwice(g);
    StepWorkedOut(m.rings);
    RingsSized(m.rings);
    hide M.Can, M.Enabled, M.Next, SegmentRings.Interrupt, Filled, After, Blank, Busy, WokenUp;
    RingsOnward(m, es, u, 3);
    RingsOnward(m, es, u, 4);
    StepTwice(After(m, es, u, 5).rings);
    RingsOnward(m, es, u, 5);
    RingsOnward(m, es, u, 6);
    RingsOnward(m, es, u, 7);
  }

  /** Three interrupts, of which the first puts nothing out. */
  lemma DrivenBy(ms: seq<Machine>, es: seq<Event>, motor: Motor)
    requires |es| == 8 && |ms| == 9 && es[4] == es[5] == es[7] == Interrupt
    requires forall i :: 0 <= i < 8 && i != 4 && i != 5 && i != 7 ==> es[i] != Interrupt
    requires ms[5].rings.pins == NO_PINS
    ensures Driven(ms, es, 8, motor) == Moved(ms[6].rings.pins, motor) + Moved(ms[8].rings.pins, motor)
  {
    assert Driven(ms, es, 1, motor) == 0;
    assert Driven(ms, es, 3, motor) == 0;
    assert Driven(ms, es, 5, motor) == 0;
    assert Driven(ms, es, 6, motor) == Moved(ms[6].rings.pins, motor);
  }
}
