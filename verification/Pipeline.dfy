/** What holds of the pipeline over whole runs: no step is lost, and no position outside the targets is reached. */
module Pipeline {
  import opened Blocks
  import opened PlannerQueue
  import opened Profile
  import opened Bresenham
  import opened Tracer
  import opened SegmentRings
  import Execution
  import opened Machine
  import M = Machine

  /** A run: the states between the events, from rest on. */
  ghost predicate Run(ms: seq<Machine>, es: seq<Event>, u: Setup) {
    && |ms| == |es| + 1
    && Starts(ms[0])
    && forall i :: 0 <= i < |es| ==> Follows(ms, es, u, i)
  }

  /** Event `i` of the run was possible and took state `i` to the next. */
  ghost predicate Follows(ms: seq<Machine>, es: seq<Event>, u: Setup, i: nat)
    requires i < |es| < |ms|
  {
    Enabled(ms[i], es[i], u) && (Can(ms[i], es[i], u) ==> ms[i + 1] == Next(ms[i], es[i], u))
  }

  /** The tracing the rings have been carrying out up to state `i`. */
  ghost function Traced(ms: seq<Machine>, es: seq<Event>, i: nat): Ideal
    requires i <= |es| < |ms|
  {
    if i == 0 then NOT_BEGUN else NextIdeal(ms[i - 1], es[i - 1], Traced(ms, es, i - 1))
  }

  lemma {:induction false} RunIsCoherent(ms: seq<Machine>, es: seq<Event>, u: Setup, i: nat)
    requires SquareRoot(u.root) && Run(ms, es, u) && i < |ms|
    ensures Coherent(ms[i], Traced(ms, es, i), ms[0].rings.x, ms[0].rings.y)
  {
    hide Coherent, M.Can, M.Enabled, M.Next, NextIdeal;
    if i == 0 {
      StartsCoherent(ms[0]);
    } else {
      RunIsCoherent(ms, es, u, i - 1);
      assert Follows(ms, es, u, i - 1);
      NextCoherent(ms[i - 1], Traced(ms, es, i - 1), ms[0].rings.x, ms[0].rings.y, es[i - 1], u);
    }
  }

  // ---------------------------------------------------------------------------------------------
  // Conservation

  /** Signed steps along an axis of the moves from number `n` on. */
  function TravelFrom(moves: seq<Move>, axis: Axis, n: nat): int
    requires n <= |moves|
    decreases |moves| - n
  {
    if n == |moves| then 0
    else Signed(Negative(moves[n], axis), StepsOn(moves[n], axis)) + TravelFrom(moves, axis, n + 1)
  }

  lemma {:induction false} TravelSplits(moves: seq<Move>, axis: Axis, n: nat)
    requires n <= |moves|
    ensures Travel(moves, axis, n) + TravelFrom(moves, axis, n) == Travel(moves, axis, |moves|)
    decreases |moves| - n
  {
    if n < |moves| {
      TravelSplits(moves, axis, n + 1);
    }
  }

  /**
   Steps still owed along an axis: those of the move being traced that have not been pulsed, and those of
   all moves after it, in the rings or still in the planner's queue.
   */
  function Owed(w: Work, t: Ideal, axis: Axis): int
    requires -1 <= t.exec < |t.moves| && forall k :: 0 <= k < |t.moves| ==> WellFormed(t.moves[k])
  {
    var moves := AllMoves(w, t);
    if t.exec == -1 then TravelFrom(moves, axis, 0)
    else
      var m := t.moves[t.exec];
      assert WellFormed(m);
      Signed(Negative(m, axis), StepsOn(m, axis) - Pulses(StepsOn(m, axis), m.events, t.units))
      + TravelFrom(moves, axis, t.exec + 1)
  }

  lemma OwedIsTheRest(w: Work, t: Ideal, axis: Axis)
    requires -1 <= t.exec < |t.moves| && forall k :: 0 <= k < |t.moves| ==> WellFormed(t.moves[k])
    ensures Position(t, axis) + Owed(w, t, axis) == Travel(AllMoves(w, t), axis, |AllMoves(w, t)|)
  {
    var moves := AllMoves(w, t);
    if t.exec == -1 {
      TravelSplits(moves, axis, 0);
    } else {
      TravelSplits(moves, axis, t.exec + 1);
      TravelPrefix(t.moves, w.waiting, axis, t.exec + 1);
      TravelPrefix(t.moves, w.waiting, axis, t.exec);
    }
  }

  /** At every instant of every run, the planner is where the machine is plus the steps still owed. */
  lemma StepsAreConserved(ms: seq<Machine>, es: seq<Event>, u: Setup, i: nat)
    requires SquareRoot(u.root) && Run(ms, es, u) && i < |ms|
    ensures Coherent(ms[i], Traced(ms, es, i), ms[0].rings.x, ms[0].rings.y)
    ensures var m, t := ms[i], Traced(ms, es, i);
            && m.main.queue.position.x == m.rings.x + Owed(WorkOf(m.main), t, X)
            && m.main.queue.position.y == m.rings.y + Owed(WorkOf(m.main), t, Y)
  {
    RunIsCoherent(ms, es, u, i);
    OwedIsTheRest(WorkOf(ms[i].main), Traced(ms, es, i), X);
    OwedIsTheRest(WorkOf(ms[i].main), Traced(ms, es, i), Y);
  }

  /** The planner's queue and the rings are empty, and no segment is being executed. */
  predicate Drained(m: Machine) {
    m.main.queue.blocks == [] && m.rings.head == m.rings.tail && !m.rings.executing
  }

  lemma DrainedTraces(m: Machine, t: Ideal, x0: int, y0: int)
    requires Coherent(m, t, x0, y0) && Drained(m)
    ensures m.rings.x == m.main.queue.position.x && m.rings.y == m.main.queue.position.y
  {
    DrainedIsExact(t, X);
    DrainedIsExact(t, Y);
    assert AllMoves(WorkOf(m.main), t) == t.moves;
  }

  /** The last line of the run so far, if there was one. */
  function LastTarget(es: seq<Event>, i: nat, u: Setup, start: Steps): Steps
    requires i <= |es|
  {
    if i == 0 then start
    else if es[i - 1].Line? then StepsOf(es[i - 1].target, u.scale) else LastTarget(es, i - 1, u, start)
  }

  lemma NextPosition(m: Machine, e: Event, u: Setup)
    requires SquareRoot(u.root) && Execution.Good(m.main) && Enabled(m, e, u) && Can(m, e, u)
    ensures Next(m, e, u).main.queue.position == if e.Line? then StepsOf(e.target, u.scale) else m.main.queue.position
  {
    if e.Line? {
      LinePosition(m.main.queue, StepsOf(e.target, u.scale), e.geometry);
    } else if OfMain(e) {
      OtherPosition(m.main, MainEvent(e, u), u.root);
    }
  }

  lemma LinePosition(q: Queue, target: Steps, g: Geometry)
    requires Sound(q) && (target != q.position ==> Physical(g))
    ensures Appended(q, target, g).position == target
  {
    if target != q.position {
      AppendedPosition(q, target, g);
    }
  }

  lemma OtherPosition(s: Execution.State, e: Execution.Event, root: real -> real)
    requires Execution.Good(s) && Execution.Can(s, e) && !e.Append?
    ensures Execution.Next(s, e, root).queue.position == s.queue.position
  {
    if e == Execution.CycleStop {
      StopWork(s);
      assert WorkOf(Execution.Stopped(s)).position == s.queue.position;
    }
  }

  lemma {:induction false} PlannerIsAtLastTarget(ms: seq<Machine>, es: seq<Event>, u: Setup, i: nat)
    requires SquareRoot(u.root) && Run(ms, es, u) && i < |ms|
    ensures ms[i].main.queue.position == LastTarget(es, i, u, ms[0].main.queue.position)
  {
    hide Execution.Good, InStep, M.Can, M.Enabled, M.Next, NextIdeal, StepsOf;
    if 0 < i {
      PlannerIsAtLastTarget(ms, es, u, i - 1);
      RunIsCoherent(ms, es, u, i - 1);
      assert Follows(ms, es, u, i - 1);
      NextCoherent(ms[i - 1], Traced(ms, es, i - 1), ms[0].rings.x, ms[0].rings.y, es[i - 1], u);
      NextPosition(ms[i - 1], es[i - 1], u);
    }
  }

  /**
   Whenever all queues have drained, the machine is at the last target, rounded to whole steps once, however
   many moves, holds and replans there were: rounding never accumulates.
   */
  lemma DrainsToTheLastTarget(ms: seq<Machine>, es: seq<Event>, u: Setup, i: nat)
    requires SquareRoot(u.root) && Run(ms, es, u) && i < |ms| && Drained(ms[i])
    ensures var target := LastTarget(es, i, u, ms[0].main.queue.position);
            ms[i].rings.x == target.x && ms[i].rings.y == target.y
  {
    RunIsCoherent(ms, es, u, i);
    DrainedTraces(ms[i], Traced(ms, es, i), ms[0].rings.x, ms[0].rings.y);
    PlannerIsAtLastTarget(ms, es, u, i);
  }

  // ---------------------------------------------------------------------------------------------
  // Tracking and the rings, throughout

  /**
   Each axis is within half a step of the straight line of the move being traced (in eighths of a step, times
   the event count), and its counter is within the event count.
   */
  ghost predicate OnLine(r: Rings, t: Ideal)
    requires 0 <= t.exec < |t.moves| && forall k :: 0 <= k < |t.moves| ==> WellFormed(t.moves[k])
  {
    var m := t.moves[t.exec];
    var px, py := Position(t, X) - Travel(t.moves, X, t.exec), Position(t, Y) - Travel(t.moves, Y, t.exec);
    && t.units <= 8 * m.events
    && 0 < r.counterX <= 8 * m.events
    && 0 < r.counterY <= 8 * m.events
    && -4 * m.events <= 8 * m.events * Signed(m.negativeX, px) - m.stepsX * t.units <= 4 * m.events
    && -4 * m.events <= 8 * m.events * Signed(m.negativeY, py) - m.stepsY * t.units <= 4 * m.events
  }

  /** At every instant of every run both axes are on the line of the move being traced. */
  lemma TracksTheLine(ms: seq<Machine>, es: seq<Event>, u: Setup, i: nat)
    requires SquareRoot(u.root) && Run(ms, es, u) && i < |ms| && 0 <= Traced(ms, es, i).exec
    ensures Coherent(ms[i], Traced(ms, es, i), ms[0].rings.x, ms[0].rings.y)
    ensures OnLine(ms[i].rings, Traced(ms, es, i))
  {
    RunIsCoherent(ms, es, u, i);
    TracedOnLine(WorkOf(ms[i].main), ms[i].rings, Traced(ms, es, i), ms[0].rings.x, ms[0].rings.y);
  }

  lemma TracedOnLine(w: Work, r: Rings, t: Ideal, x0: int, y0: int)
    requires InStep(w, r, t, x0, y0) && 0 <= t.exec
    ensures OnLine(r, t)
  {
    var m := t.moves[t.exec];
    assert WellFormed(m);
    UnitsInRange(t, w.remaining);
    CounterInRange(m.stepsX, m.events, t.units);
    CounterInRange(m.stepsY, m.events, t.units);
    WithinHalfAStep(m.stepsX, m.events, t.units);
    WithinHalfAStep(m.stepsY, m.events, t.units);
    SignedTwice(m.negativeX, Pulses(m.stepsX, m.events, t.units));
    SignedTwice(m.negativeY, Pulses(m.stepsY, m.events, t.units));
  }

  /**
   Between two segments, in every run, an axis that is dominant in the block being traced is exactly as many steps
   from the block's start as the segments of the block executed so far hold.
   */
  lemma BoundariesAreWhole(ms: seq<Machine>, es: seq<Event>, u: Setup, i: nat)
    requires SquareRoot(u.root) && Run(ms, es, u) && i < |ms| && 0 <= Traced(ms, es, i).exec
    requires !ms[i].rings.executing
    ensures Coherent(ms[i], Traced(ms, es, i), ms[0].rings.x, ms[0].rings.y)
    ensures AtBoundary(ms[i].rings, Traced(ms, es, i), WorkOf(ms[i].main).remaining, ms[0].rings.x, ms[0].rings.y)
  {
    RunIsCoherent(ms, es, u, i);
    BoundaryInStep(WorkOf(ms[i].main), ms[i].rings, Traced(ms, es, i), ms[0].rings.x, ms[0].rings.y);
  }

  /** Whole steps of the block being traced are done, and the dominant axis has made them. */
  ghost predicate AtBoundary(r: Rings, t: Ideal, remaining: int, x0: int, y0: int)
    requires 0 <= t.exec < |t.moves| && 0 <= remaining
  {
    var m, n := t.moves[t.exec], StepsExecuted(t, remaining);
    && 0 <= n <= m.events && t.units == 8 * n
    && (m.stepsX == m.events ==> r.x == x0 + Travel(t.moves, X, t.exec) + Signed(m.negativeX, n))
    && (m.stepsY == m.events ==> r.y == y0 + Travel(t.moves, Y, t.exec) + Signed(m.negativeY, n))
  }

  lemma BoundaryInStep(w: Work, r: Rings, t: Ideal, x0: int, y0: int)
    requires InStep(w, r, t, x0, y0) && 0 <= t.exec && !r.executing
    ensures AtBoundary(r, t, w.remaining, x0, y0)
  {
    BoundaryIsWhole(t, w.remaining);
    UnitsInRange(t, w.remaining);
    if t.moves[t.exec].stepsX == t.moves[t.exec].events {
      assert StepsOn(t.moves[t.exec], X) == t.moves[t.exec].events;
    }
    if t.moves[t.exec].stepsY == t.moves[t.exec].events {
      assert StepsOn(t.moves[t.exec], Y) == t.moves[t.exec].events;
    }
  }

  /** The block being traced is finished: the next segment is of another one, or everything has drained. */
  predicate BlockFinished(m: Machine) {
    && Sized(m.rings) && !m.rings.executing
    && if m.rings.head == m.rings.tail then m.main.queue.blocks == []
       else m.rings.segments[m.rings.tail].blockIndex != m.rings.execIndex
  }

  /** Both axes are at the end of the block, and both counters back at half of its event count, scaled by eight. */
  ghost predicate AtBlockEnd(r: Rings, t: Ideal, x0: int, y0: int)
    requires 0 <= t.exec < |t.moves|
  {
    && r.counterX == r.counterY == 4 * t.moves[t.exec].events
    && r.x == x0 + Travel(t.moves, X, t.exec + 1)
    && r.y == y0 + Travel(t.moves, Y, t.exec + 1)
  }

  /** In every run, however blocks are split into segments and levels, each is traced exactly. */
  lemma BlocksAreTracedExactly(ms: seq<Machine>, es: seq<Event>, u: Setup, i: nat)
    requires SquareRoot(u.root) && Run(ms, es, u) && i < |ms| && 0 <= Traced(ms, es, i).exec
    requires BlockFinished(ms[i])
    ensures Coherent(ms[i], Traced(ms, es, i), ms[0].rings.x, ms[0].rings.y)
    ensures AtBlockEnd(ms[i].rings, Traced(ms, es, i), ms[0].rings.x, ms[0].rings.y)
  {
    RunIsCoherent(ms, es, u, i);
    FinishedInStep(ms[i], Traced(ms, es, i), ms[0].rings.x, ms[0].rings.y);
  }

  lemma FinishedInStep(m: Machine, t: Ideal, x0: int, y0: int)
    requires Coherent(m, t, x0, y0) && 0 <= t.exec && BlockFinished(m)
    ensures AtBlockEnd(m.rings, t, x0, y0)
  {
    hide Accounted, Fits, BlocksLinked, CountersLinked, Position, Travel, Execution.OnCourse, AtBlockEnd;
    if m.rings.head == m.rings.tail {
      LastBlockEnds(m.rings, t, x0, y0);
    } else {
      BlockEnds(m.rings, t, WorkOf(m.main).remaining, x0, y0);
    }
  }

  lemma BlockEnds(r: Rings, t: Ideal, remaining: nat, x0: int, y0: int)
    requires Linked(r, t, remaining, x0, y0) && 0 <= t.exec < |t.moves| && !r.executing && r.head != r.tail
    requires r.segments[r.tail].blockIndex != r.execIndex
    ensures AtBlockEnd(r, t, x0, y0)
  {
    BeginLinked(r, t, remaining, x0, y0);
    FinishedIsExact(t, remaining, X);
    FinishedIsExact(t, remaining, Y);
    CountersAtEnd(r, t, x0, y0);
  }

  lemma LastBlockEnds(r: Rings, t: Ideal, x0: int, y0: int)
    requires Linked(r, t, 0, x0, y0) && 0 <= t.exec < |t.moves| && t.pending == []
    ensures AtBlockEnd(r, t, x0, y0)
  {
    DrainedIsFinished(t, X);
    DrainedIsFinished(t, Y);
    CountersAtEnd(r, t, x0, y0);
  }

  lemma CountersAtEnd(r: Rings, t: Ideal, x0: int, y0: int)
    requires 0 <= t.exec < |t.moves| && forall k :: 0 <= k < |t.moves| ==> WellFormed(t.moves[k])
    requires CountersLinked(r, t) && r.x == x0 + Position(t, X) && r.y == y0 + Position(t, Y)
    requires forall axis: Axis :: var m := t.moves[t.exec];
               && 0 < m.events
               && Pulses(StepsOn(m, axis), m.events, t.units) == StepsOn(m, axis)
               && Counter(StepsOn(m, axis), m.events, t.units) == 4 * m.events
    ensures AtBlockEnd(r, t, x0, y0)
  {
    var m := t.moves[t.exec];
    assert StepsOn(m, X) == m.stepsX && StepsOn(m, Y) == m.stepsY;
    hide Pulses, Counter;
  }

  lemma SignedTwice(negative: bool, n: int)
    ensures Signed(negative, Signed(negative, n)) == n
  {
  }

  lemma LoadIsLinked(m: Machine, t: Ideal, x0: int, y0: int, u: Setup)
    requires Coherent(m, t, x0, y0) && Enabled(m, Load, u) && !m.main.queue.recalculate
    ensures Linked(m.rings, t, 0, x0, y0) && SegmentCount(m.rings) <= 4 && Sized(m.rings)
  {
    hide Tracing, Fits, SegmentsLinked, BlocksLinked, CountersLinked, Position, Travel;
  }

  /** Whenever a new block is loaded, its slot is not referred to by any segment queued or in execution. */
  lemma SlotsAreNeverReused(ms: seq<Machine>, es: seq<Event>, u: Setup, i: nat)
    requires SquareRoot(u.root) && Run(ms, es, u) && i < |es| && es[i] == Load && !ms[i].main.queue.recalculate
    ensures var r := ms[i].rings;
            && Sized(r)
            && (forall j :: 0 <= j < SegmentCount(r) && j < 6 ==>
              r.segments[SegmentAt(r.tail, j)].blockIndex != NextBlock(r.prepIndex))
            && (r.executing ==> r.execIndex != NextBlock(r.prepIndex))
  {
    hide Coherent, M.Can, M.Enabled, M.Next, NextIdeal, Linked;
    RunIsCoherent(ms, es, u, i);
    assert Follows(ms, es, u, i);
    LoadIsLinked(ms[i], Traced(ms, es, i), ms[0].rings.x, ms[0].rings.y, u);
    NewSlotIsFree(ms[i].rings, Traced(ms, es, i), ms[0].rings.x, ms[0].rings.y);
  }
}
