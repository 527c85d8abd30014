/**
 What the motors are driven with. The interrupt works out step bits in one tick and puts them out in the next; here the
 bits put out are counted over whole runs, for both motors of the X axis and the one of the Y axis.
 */
module Emission {
  import opened Blocks
  import opened PlannerQueue
  import opened Profile
  import opened Bresenham
  import opened Tracer
  import opened SegmentRings
  import opened Machine
  import opened Pipeline
  import Execution
  import M = Machine

  function StepOf(p: Pins, motor: Motor): bool {
    match motor case X1 => p.stepX case X2 => p.stepX2 case Y1 => p.stepY
  }

  function NegativeOf(p: Pins, motor: Motor): bool {
    match motor case X1 => p.negativeX case X2 => p.negativeX2 case Y1 => p.negativeY
  }

  /** What the bits make a motor do: a step forward or back, or nothing. */
  function Moved(p: Pins, motor: Motor): int {
    if StepOf(p, motor) then Signed(NegativeOf(p, motor), 1) else 0
  }

  /** There is something for the interrupt to do. */
  predicate Busy(r: Rings) {
    r.executing || r.head != r.tail
  }

  /**
   One interrupt: the bits worked out before are put out, and those worked out now are those of the steps made. An axis
   has its bit set exactly when its position changes, and its direction bit says which way; both motors of the X axis
   get the same.
   */
  ghost predicate PulsesSteps(r: Rings, r': Rings) {
    && r'.pins == r.next
    && (Busy(r) ==>
          && r'.running == r.running
          && r'.x == r.x + Moved(r'.next, X1) == r.x + Moved(r'.next, X2)
          && r'.y == r.y + Moved(r'.next, Y1)
          && (r'.next.stepX <==> r'.x != r.x) && r'.next.stepX2 == r'.next.stepX && (r'.next.stepY <==> r'.y != r.y))
    && (!Busy(r) ==> r'.next == r.next && !r'.running && r'.x == r.x && r'.y == r.y)
  }

  /** The direction bits are those of the block in execution. */
  predicate Directed(r: Rings) {
    && Sized(r)
    && r.next.negativeX == r.next.negativeX2 == r.blocks[r.execIndex].negativeX
    && r.next.negativeY == r.blocks[r.execIndex].negativeY
  }

  lemma StepPulses(r: Rings)
    requires Directed(r)
    ensures var r' := SegmentStepped(r);
            && r'.running == r.running && r'.pins == r.pins
            && r'.x == r.x + Moved(r'.next, X1) == r.x + Moved(r'.next, X2)
            && r'.y == r.y + Moved(r'.next, Y1)
            && (r'.next.stepX <==> r'.x != r.x) && r'.next.stepX2 == r'.next.stepX && (r'.next.stepY <==> r'.y != r.y)
  {
    hide AxisTick, Word16;
  }

  lemma BeginDirects(r: Rings, t: Ideal, remaining: nat, x0: int, y0: int)
    requires Linked(r, t, remaining, x0, y0) && !r.executing && r.head != r.tail
    ensures var b := SegmentBegun(r);
            Directed(b) && b.x == r.x && b.y == r.y && b.running == r.running && b.pins == r.pins
  {
    WaitsToBegin(r, t, remaining, x0, y0);
    FrontBlock(r, t, remaining, x0, y0);
    hide Linked;
  }

  lemma ExecutingDirects(r: Rings, t: Ideal, remaining: nat, x0: int, y0: int)
    requires Linked(r, t, remaining, x0, y0) && r.executing
    ensures Directed(r)
  {
    FrontBlock(r, t, remaining, x0, y0);
    hide Accounted, Fits, SegmentsLinked, BlocksLinked, Counter, Position;
  }

  lemma InterruptPulses(r: Rings, t: Ideal, remaining: nat, x0: int, y0: int)
    requires Linked(r, t, remaining, x0, y0)
    ensures PulsesSteps(r, SegmentRings.Interrupt(r))
  {
    var d := r.(pins := r.next);
    PinsLinked(r, d, t, remaining, x0, y0);
    hide Tracing, Fits, SegmentsLinked, BlocksLinked, CountersLinked, Position, SegmentStepped, SegmentBegun, Moved;
    if d.executing {
      ExecutingDirects(d, t, remaining, x0, y0);
      StepPulses(d);
    } else if d.head != d.tail {
      BeginDirects(d, t, remaining, x0, y0);
      StepPulses(SegmentBegun(d));
    }
  }

  // ---------------------------------------------------------------------------------------------
  // The pins over a run

  /** Steps the pins have made a motor take up to state `i`. */
  ghost function Driven(ms: seq<Machine>, es: seq<Event>, i: nat, motor: Motor): int
    requires i <= |es| < |ms|
  {
    if i == 0 then 0
    else Driven(ms, es, i - 1, motor) + if es[i - 1] == Interrupt then Moved(ms[i].rings.pins, motor) else 0
  }

  /** A step worked out that the next interrupt will put out. */
  function Pending(r: Rings, motor: Motor): int {
    if r.running then Moved(r.next, motor) else 0
  }

  /** Steps of the second X motor that were put out when the timer went off, and left to be put out again. */
  ghost function Repeated(ms: seq<Machine>, es: seq<Event>, i: nat): int
    requires i <= |es| < |ms|
  {
    if i == 0 then 0
    else Repeated(ms, es, i - 1) + if es[i - 1] == WakeUp then Moved(ms[i - 1].rings.next, X2) else 0
  }

  /** Where the pins have taken each motor, and what the position says. */
  ghost predicate Emitted(ms: seq<Machine>, es: seq<Event>, i: nat)
    requires i <= |es| < |ms|
  {
    var r, r0 := ms[i].rings, ms[0].rings;
    && r.x == r0.x + Driven(ms, es, i, X1) + Pending(r, X1)
    && r.y == r0.y + Driven(ms, es, i, Y1) + Pending(r, Y1)
    && r.x + Repeated(ms, es, i) == r0.x + Driven(ms, es, i, X2) + Pending(r, X2)
  }

  lemma EventEmits(m: Machine, e: Event, u: Setup, t: Ideal, x0: int, y0: int)
    requires Coherent(m, t, x0, y0) && M.Enabled(m, e, u) && M.Can(m, e, u)
    ensures var r, r' := m.rings, M.Next(m, e, u).rings;
            && (e == Interrupt ==> r.running && PulsesSteps(r, r'))
            && (e == WakeUp ==> !r.running && r' == WokenUp(r))
            && (OfMain(e) ==> r'.next == r.next && r'.running == r.running && r'.x == r.x && r'.y == r.y)
  {
    hide Tracing, Fits, SegmentsLinked, BlocksLinked, CountersLinked, Position, PulsesSteps;
    if e == Interrupt {
      InterruptPulses(m.rings, t, WorkOf(m.main).remaining, x0, y0);
    }
  }

  /**
   In every run the pins have driven each axis exactly as far as its position says, but for the step that the next
   interrupt puts out; the second X motor has been driven further by what was repeated when the timer was switched on.
   */
  lemma {:induction false} PinsDriveTheAxes(ms: seq<Machine>, es: seq<Event>, u: Setup, i: nat)
    requires SquareRoot(u.root) && Run(ms, es, u) && i < |ms|
    ensures Emitted(ms, es, i)
  {
    if 0 < i {
      PinsDriveTheAxes(ms, es, u, i - 1);
      EventOfRun(ms, es, u, i - 1);
    }
  }

  /** What an event of a run does to the pins. */
  lemma EventOfRun(ms: seq<Machine>, es: seq<Event>, u: Setup, i: nat)
    requires SquareRoot(u.root) && Run(ms, es, u) && i < |es|
    ensures |ms| == |es| + 1
    ensures var r, r' := ms[i].rings, ms[i + 1].rings;
            && (es[i] == Interrupt ==> r.running && PulsesSteps(r, r'))
            && (es[i] == WakeUp ==> !r.running && r' == WokenUp(r))
            && (OfMain(es[i]) ==> r'.next == r.next && r'.running == r.running && r'.x == r.x && r'.y == r.y)
  {
    hide Coherent, M.Can, M.Enabled, M.Next, NextIdeal, PulsesSteps;
    RunIsCoherent(ms, es, u, i);
    assert Follows(ms, es, u, i);
    NextCoherent(ms[i], Traced(ms, es, i), ms[0].rings.x, ms[0].rings.y, es[i], u);
    EventEmits(ms[i], es[i], u, Traced(ms, es, i), ms[0].rings.x, ms[0].rings.y);
  }

  // ---------------------------------------------------------------------------------------------
  // The pulses of a block

  /** The axis a motor belongs to. */
  function AxisOf(motor: Motor): Axis {
    if motor == Y1 then Y else X
  }

  /** Step bits worked out for a motor since the interrupt last changed to another block. */
  ghost function Made(ms: seq<Machine>, es: seq<Event>, i: nat, motor: Motor): nat
    requires i <= |es| < |ms|
  {
    if i == 0 then 0
    else MadeNext(ms[i - 1].rings, ms[i].rings, es[i - 1], Made(ms, es, i - 1, motor), motor)
  }

  ghost function MadeNext(r: Rings, r': Rings, e: Event, made: nat, motor: Motor): nat {
    (if r'.execIndex == r.execIndex then made else 0)
    + if e == Interrupt && Busy(r) && StepOf(r'.next, motor) then 1 else 0
  }

  /** A motor has got the pulses due in the move being traced, and its direction bit is that of the move. */
  ghost predicate InTime(r: Rings, t: Ideal, made: nat, motor: Motor) {
    0 <= t.exec < |t.moves| ==>
      var m := t.moves[t.exec];
      && WellFormed(m)
      && made == Pulses(StepsOn(m, AxisOf(motor)), m.events, t.units)
      && NegativeOf(r.next, motor) == Negative(m, AxisOf(motor))
  }

  /** Pulses a move has made, none if it is another one. */
  function PulsesOf(t: Ideal, exec: int, axis: Axis): int
    requires 0 <= exec < |t.moves| && 0 < t.moves[exec].events
  {
    if exec == t.exec then Pulses(StepsOn(t.moves[exec], axis), t.moves[exec].events, t.units) else 0
  }

  /** A tick changes the position by the pulses it adds to those of the move it is on. */
  lemma TickAdds(t: Ideal, remaining: nat, axis: Axis)
    requires Tracing(t, remaining) && t.pending != [] && Tracing(Tick(t), remaining)
    ensures var n := Tick(t);
            && 0 <= n.exec && WellFormed(n.moves[n.exec]) && n.moves == t.moves
            && var m := n.moves[n.exec];
               Position(n, axis) - Position(t, axis)
               == Signed(Negative(m, axis), PulsesOf(n, n.exec, axis) - PulsesOf(t, n.exec, axis))
  {
    var n := Tick(t);
    if t.left == 0 {
      BeginStays(t, remaining, axis);
      var m := n.moves[n.exec];
      assert WellFormed(m);
      BlockIsExact(StepsOn(m, axis), m.events);
    }
    assert WellFormed(n.moves[n.exec]);
  }

  lemma OneStep(negative: bool, n: int, moved: int, step: bool)
    requires Signed(negative, n) == moved && moved == if step then Signed(negative, 1) else 0
    ensures n == if step then 1 else 0
  {
  }

  lemma TickMakes(r: Rings, r': Rings, t: Ideal, remaining: nat, x0: int, y0: int, motor: Motor)
    requires Linked(r, t, remaining, x0, y0) && Linked(r', Tick(t), remaining, x0, y0)
    requires Busy(r) && PulsesSteps(r, r')
    ensures var n := Tick(t);
            && 0 <= n.exec && WellFormed(n.moves[n.exec]) && n.moves == t.moves
            && PulsesOf(n, n.exec, AxisOf(motor))
               == PulsesOf(t, n.exec, AxisOf(motor)) + (if StepOf(r'.next, motor) then 1 else 0)
            && NegativeOf(r'.next, motor) == Negative(n.moves[n.exec], AxisOf(motor))
  {
    var axis, n := AxisOf(motor), Tick(t);
    SomePending(r, t, remaining, x0, y0);
    TickAdds(t, remaining, axis);
    DirectionsLinked(r', n, motor);
    PositionMoves(r, r', t, remaining, x0, y0, motor);
    hide *;
    OneStep(NegativeOf(r'.next, motor), PulsesOf(n, n.exec, axis) - PulsesOf(t, n.exec, axis), Moved(r'.next, motor),
            StepOf(r'.next, motor));
  }

  lemma SomePending(r: Rings, t: Ideal, remaining: nat, x0: int, y0: int)
    requires Linked(r, t, remaining, x0, y0) && Busy(r)
    ensures t.pending != []
  {
    assert |t.pending| == SegmentCount(r);
  }

  lemma PositionMoves(r: Rings, r': Rings, t: Ideal, remaining: nat, x0: int, y0: int, motor: Motor)
    requires Linked(r, t, remaining, x0, y0) && Linked(r', Tick(t), remaining, x0, y0)
    requires Busy(r) && PulsesSteps(r, r')
    ensures Position(Tick(t), AxisOf(motor)) - Position(t, AxisOf(motor)) == Moved(r'.next, motor)
  {
    hide Accounted, Fits, SegmentsLinked, BlocksLinked, CountersLinked, Position, Moved, Tick;
  }

  lemma DirectionsLinked(r: Rings, t: Ideal, motor: Motor)
    requires 0 <= t.exec < |t.moves| && forall k :: 0 <= k < |t.moves| ==> WellFormed(t.moves[k])
    requires CountersLinked(r, t)
    ensures NegativeOf(r.next, motor) == Negative(t.moves[t.exec], AxisOf(motor))
  {
    hide Counter;
  }

  /** What an event other than a tick leaves of the block being traced. */
  lemma OtherKeeps(m: Machine, e: Event, t: Ideal, x0: int, y0: int)
    requires Coherent(m, t, x0, y0) && (e == Interrupt ==> !Busy(m.rings))
    ensures var n := NextIdeal(m, e, t);
            n.exec == t.exec && n.units == t.units && |t.moves| <= |n.moves| && n.moves[..|t.moves|] == t.moves
  {
    hide Accounted, Fits, BlocksLinked, CountersLinked, Position;
  }

  /** The slot tells whether it is still the same move. */
  lemma SlotTells(r: Rings, r': Rings, t: Ideal, n: Ideal)
    requires Sized(r) && Sized(r') && -1 <= t.exec < |t.moves| && -1 <= n.exec < |n.moves|
    requires forall k :: 0 <= k < |t.moves| ==> WellFormed(t.moves[k])
    requires forall k :: 0 <= k < |n.moves| ==> WellFormed(n.moves[k])
    requires CountersLinked(r, t) && CountersLinked(r', n) && t.exec <= n.exec <= t.exec + 1
    ensures r'.execIndex == r.execIndex <==> n.exec == t.exec
  {
    SlotFollows(t.exec);
    hide Counter;
  }

  lemma TicksOn(t: Ideal, remaining: nat)
    requires Tracing(t, remaining) && t.pending != []
    ensures t.exec <= Tick(t).exec <= t.exec + 1 && t.exec < |t.moves|
  {
    hide Accounted;
    if t.left == 0 && t.pending[0].serial != t.exec {
      assert t.exec <= t.pending[0].serial;
    }
  }

  lemma TickInTime(r: Rings, r': Rings, t: Ideal, remaining: nat, x0: int, y0: int, made: nat, motor: Motor)
    requires Linked(r, t, remaining, x0, y0) && Linked(r', Tick(t), remaining, x0, y0)
    requires Busy(r) && PulsesSteps(r, r') && InTime(r, t, made, motor)
    ensures InTime(r', Tick(t), MadeNext(r, r', Interrupt, made, motor), motor)
  {
    TickMakes(r, r', t, remaining, x0, y0, motor);
    TickTells(r, r', t, remaining, x0, y0);
    hide Linked, PulsesSteps, Busy, Tick, Pulses, StepOf, NegativeOf;
  }

  lemma TickTells(r: Rings, r': Rings, t: Ideal, remaining: nat, x0: int, y0: int)
    requires Linked(r, t, remaining, x0, y0) && Linked(r', Tick(t), remaining, x0, y0) && Busy(r)
    ensures r'.execIndex == r.execIndex <==> Tick(t).exec == t.exec
  {
    SomePending(r, t, remaining, x0, y0);
    TicksOn(t, remaining);
    hide Accounted, Fits, SegmentsLinked, BlocksLinked, CountersLinked, Position, Tick;
    SlotTells(r, r', t, Tick(t));
  }

  lemma InterruptInTime(m: Machine, u: Setup, t: Ideal, x0: int, y0: int, made: nat, motor: Motor)
    requires Coherent(m, t, x0, y0) && M.Enabled(m, Interrupt, u) && Sized(m.rings)
    requires Busy(m.rings) && InTime(m.rings, t, made, motor)
    ensures var r' := SegmentRings.Interrupt(m.rings);
            InTime(r', Tick(t), MadeNext(m.rings, r', Interrupt, made, motor), motor)
  {
    InterruptInStep(WorkOf(m.main), m.rings, t, x0, y0);
    InterruptPulses(m.rings, t, WorkOf(m.main).remaining, x0, y0);
    hide Linked, PulsesSteps, Tick, InTime, MadeNext, Execution.Good, M.Enabled, SegmentRings.Interrupt, AllMoves, Busy;
    TickInTime(m.rings, SegmentRings.Interrupt(m.rings), t, WorkOf(m.main).remaining, x0, y0, made, motor);
  }

  lemma OtherEventInTime(m: Machine, e: Event, u: Setup, t: Ideal, x0: int, y0: int, made: nat, motor: Motor)
    requires Coherent(m, t, x0, y0) && M.Enabled(m, e, u) && InTime(m.rings, t, made, motor) && M.Can(m, e, u)
    requires !(e == Interrupt && Busy(m.rings))
    ensures var r' := M.Next(m, e, u).rings;
            InTime(r', NextIdeal(m, e, t), MadeNext(m.rings, r', e, made, motor), motor)
  {
    EventEmits(m, e, u, t, x0, y0);
    OtherKeeps(m, e, t, x0, y0);
    OtherTells(m, e, u, t, x0, y0);
    hide Coherent, M.Enabled, M.Can, M.Next, NextIdeal, InTime, MadeNext, PulsesSteps, Busy, WokenUp, NegativeOf;
    IdleEvent(m.rings, M.Next(m, e, u).rings, motor);
    OtherInTime(m.rings, M.Next(m, e, u).rings, t, NextIdeal(m, e, t), made, e, motor);
  }

  /** Every event of a run keeps a motor in time. */
  lemma EventInTime(m: Machine, e: Event, u: Setup, t: Ideal, x0: int, y0: int, made: nat, motor: Motor)
    requires SquareRoot(u.root) && Coherent(m, t, x0, y0) && M.Enabled(m, e, u) && InTime(m.rings, t, made, motor)
    ensures M.Can(m, e, u)
    ensures var r' := M.Next(m, e, u).rings;
            InTime(r', NextIdeal(m, e, t), MadeNext(m.rings, r', e, made, motor), motor)
  {
    hide Coherent, M.Enabled, InTime, MadeNext, PulsesSteps, Busy, InStep, Linked, SegmentRings.Interrupt, Tick;
    hide AllMoves;
    NextCoherent(m, t, x0, y0, e, u);
    if e == Interrupt && Busy(m.rings) {
      InterruptInTime(m, u, t, x0, y0, made, motor);
    } else {
      hide M.Can, M.Next, NextIdeal;
      OtherEventInTime(m, e, u, t, x0, y0, made, motor);
    }
  }

  lemma OtherInTime(r: Rings, r': Rings, t: Ideal, n: Ideal, made: nat, e: Event, motor: Motor)
    requires InTime(r, t, made, motor) && !(e == Interrupt && Busy(r))
    requires n.exec == t.exec && n.units == t.units && |t.moves| <= |n.moves| && n.moves[..|t.moves|] == t.moves
    requires t.exec < |t.moves| && r'.execIndex == r.execIndex
    requires NegativeOf(r'.next, motor) == NegativeOf(r.next, motor)
    ensures InTime(r', n, MadeNext(r, r', e, made, motor), motor)
  {
    if 0 <= t.exec {
      assert n.moves[..|t.moves|][t.exec] == n.moves[t.exec];
    }
  }

  lemma OtherTells(m: Machine, e: Event, u: Setup, t: Ideal, x0: int, y0: int)
    requires Coherent(m, t, x0, y0) && M.Enabled(m, e, u) && M.Can(m, e, u) && (e == Interrupt ==> !Busy(m.rings))
    ensures M.Next(m, e, u).rings.execIndex == m.rings.execIndex && t.exec < |t.moves|
  {
    hide Accounted, Fits, SegmentsLinked, BlocksLinked, CountersLinked, Position, SegmentStepped, SegmentBegun;
  }

  lemma IdleEvent(r: Rings, r': Rings, motor: Motor)
    ensures PulsesSteps(r, r') && !Busy(r) ==> r'.next == r.next
    ensures r' == WokenUp(r) ==> NegativeOf(r'.next, motor) == NegativeOf(r.next, motor)
  {
  }

  /** In every run, at every instant, every motor has got exactly the pulses due in the block, in its direction. */
  lemma {:induction false} PulsesInTime(ms: seq<Machine>, es: seq<Event>, u: Setup, i: nat, motor: Motor)
    requires SquareRoot(u.root) && Run(ms, es, u) && i < |ms|
    ensures InTime(ms[i].rings, Traced(ms, es, i), Made(ms, es, i, motor), motor)
  {
    hide Coherent, M.Can, M.Enabled, M.Next, NextIdeal, InTime, MadeNext;
    if 0 < i {
      PulsesInTime(ms, es, u, i - 1, motor);
      RunIsCoherent(ms, es, u, i - 1);
      assert Follows(ms, es, u, i - 1);
      EventInTime(ms[i - 1], es[i - 1], u, Traced(ms, es, i - 1), ms[0].rings.x, ms[0].rings.y,
                  Made(ms, es, i - 1, motor), motor);
    } else {
      NothingYet(ms[0].rings, motor);
    }
  }

  lemma NothingYet(r: Rings, motor: Motor)
    ensures InTime(r, NOT_BEGUN, 0, motor)
  {
  }

  /** Pulses of the move being traced once it is finished. */
  lemma FinishedPulses(m: Machine, t: Ideal, x0: int, y0: int, made: nat, motor: Motor)
    requires Coherent(m, t, x0, y0) && 0 <= t.exec && BlockFinished(m) && InTime(m.rings, t, made, motor)
    ensures t.exec < |t.moves| && made == StepsOn(t.moves[t.exec], AxisOf(motor))
  {
    hide Accounted, Fits, BlocksLinked, CountersLinked, Position, Travel, Execution.OnCourse, Pulses;
    if m.rings.head == m.rings.tail {
      DrainedIsFinished(t, AxisOf(motor));
    } else {
      BeginLinked(m.rings, t, WorkOf(m.main).remaining, x0, y0);
      FinishedIsExact(t, WorkOf(m.main).remaining, AxisOf(motor));
    }
  }

  /**
   The pulses worked out for a block, however it was split into segments and levels, are for each motor exactly the
   steps of its axis.
   */
  lemma BlocksGetTheirPulses(ms: seq<Machine>, es: seq<Event>, u: Setup, i: nat, motor: Motor)
    requires SquareRoot(u.root) && Run(ms, es, u) && i < |ms| && 0 <= Traced(ms, es, i).exec
    requires BlockFinished(ms[i])
    ensures var t := Traced(ms, es, i);
            t.exec < |t.moves| && Made(ms, es, i, motor) == StepsOn(t.moves[t.exec], AxisOf(motor))
  {
    hide Coherent, InTime;
    RunIsCoherent(ms, es, u, i);
    PulsesInTime(ms, es, u, i, motor);
    FinishedPulses(ms[i], Traced(ms, es, i), ms[0].rings.x, ms[0].rings.y, Made(ms, es, i, motor), motor);
  }
}
