/** With soft limits on, no run of lines, arcs and jogs takes the machine out of its working area. */
module SoftLimits {
  import opened Blocks
  import opened PlannerQueue
  import opened Profile
  import opened Reals
  import opened Tracer
  import opened SegmentRings
  import Execution
  import opened Machine
  import M = Machine
  import opened Pipeline

  /** Whether a target is outside the travel of the machine. Travel is stored as a negative number. */
  predicate CheckTravelLimits(target: Point, maxTravel: Point) {
    || target.x < 0.0 || target.x > -maxTravel.x
    || target.y < 0.0 || target.y > -maxTravel.y
    || target.z > 0.0 || target.z < maxTravel.z
  }

  /** Whether a target passes the gateway to the planner: without soft limits every one does. */
  predicate Passes(target: Point, softLimits: bool, maxTravel: Point) {
    softLimits ==> !CheckTravelLimits(target, maxTravel)
  }

  datatype Gate = Planned | Refused | SoftLimitAlarm

  /**
   What becomes of a line: outside the limits a jog is refused, and any other line ends in an alarm and a
   reset before it is planned. Without soft limits everything is planned.
   */
  function Gateway(target: Point, jogging: bool, softLimits: bool, maxTravel: Point): Gate {
    if Passes(target, softLimits, maxTravel) then Planned else if jogging then Refused else SoftLimitAlarm
  }

  /** With soft limits exactly the targets in the box pass; outside of it a jog is refused, anything else an alarm. */
  lemma GateIsTheBox(target: Point, jogging: bool, softLimits: bool, maxTravel: Point)
    ensures var inside := 0.0 <= target.x <= -maxTravel.x && 0.0 <= target.y <= -maxTravel.y
                          && maxTravel.z <= target.z <= 0.0;
            var gate := Gateway(target, jogging, softLimits, maxTravel);
            && (gate == Planned <==> inside || !softLimits)
            && (gate == Refused <==> jogging && softLimits && !inside)
            && (gate == SoftLimitAlarm <==> !jogging && softLimits && !inside)
  {
  }

  /** Rounding to whole steps keeps order. */
  lemma LroundMonotone(x: real, y: real)
    requires x <= y
    ensures Lround(x) <= Lround(y)
  {
  }

  /** Length of an axis in steps. */
  function TravelSteps(maxTravel: real, scale: real): int {
    Lround(-maxTravel * scale)
  }

  lemma ScaledInRange(x: real, maxTravel: real, scale: real)
    requires 0.0 <= x <= -maxTravel && 0.0 < scale
    ensures 0 <= Lround(x * scale) <= TravelSteps(maxTravel, scale)
  {
    ScaleMonotone(0.0, x, scale);
    ScaleMonotone(x, -maxTravel, scale);
    assert 0.0 * scale == 0.0;
    LroundMonotone(0.0, x * scale);
    LroundMonotone(x * scale, -maxTravel * scale);
  }

  /** The working area in steps. */
  predicate InArea(x: int, y: int, maxTravel: Point, scale: Point) {
    0 <= x <= TravelSteps(maxTravel.x, scale.x) && 0 <= y <= TravelSteps(maxTravel.y, scale.y)
  }

  lemma TargetInArea(target: Point, maxTravel: Point, scale: Point)
    requires !CheckTravelLimits(target, maxTravel) && 0.0 < scale.x && 0.0 < scale.y
    ensures InArea(StepsOf(target, scale).x, StepsOf(target, scale).y, maxTravel, scale)
  {
    ScaledInRange(target.x, maxTravel.x, scale.x);
    ScaledInRange(target.y, maxTravel.y, scale.y);
  }

  /** Every line of the run passed the gateway. */
  predicate Gated(es: seq<Event>, maxTravel: Point) {
    forall i :: 0 <= i < |es| && es[i].Line? ==> Gateway(es[i].target, false, true, maxTravel) == Planned
  }

  /** The end of every move of the run, from its start on, is in the area. */
  ghost predicate EndsInArea(moves: seq<Move>, x0: int, y0: int, maxTravel: Point, scale: Point) {
    forall n :: 0 <= n <= |moves| ==> InArea(x0 + Travel(moves, X, n), y0 + Travel(moves, Y, n), maxTravel, scale)
  }

  lemma OneMoreEnd(moves: seq<Move>, m: Move, x0: int, y0: int, maxTravel: Point, scale: Point)
    requires EndsInArea(moves, x0, y0, maxTravel, scale)
    requires var ms := moves + [m]; InArea(x0 + Travel(ms, X, |ms|), y0 + Travel(ms, Y, |ms|), maxTravel, scale)
    ensures EndsInArea(moves + [m], x0, y0, maxTravel, scale)
  {
    forall n | 0 <= n <= |moves| + 1
      ensures InArea(x0 + Travel(moves + [m], X, n), y0 + Travel(moves + [m], Y, n), maxTravel, scale)
    {
      if n <= |moves| {
        TravelPrefix(moves, [m], X, n);
        TravelPrefix(moves, [m], Y, n);
      }
    }
  }

  /** Moves are added only where they lead to a position in the area. */
  lemma EndsStayInArea(
      moves: seq<Move>, added: seq<Move>, w: Work, rings: Rings, t: Ideal, x0: int, y0: int, maxTravel: Point,
      scale: Point)
    requires InStep(w, rings, t, x0, y0) && AllMoves(w, t) == moves + added && |added| <= 1
    requires added != [] ==> InArea(w.position.x, w.position.y, maxTravel, scale)
    requires EndsInArea(moves, x0, y0, maxTravel, scale)
    ensures EndsInArea(AllMoves(w, t), x0, y0, maxTravel, scale)
  {
    hide Tracing, Fits, SegmentsLinked, BlocksLinked, CountersLinked, Position;
    if added == [] {
      assert moves + added == moves;
    } else {
      assert added == [added[0]];
      OneMoreEnd(moves, added[0], x0, y0, maxTravel, scale);
    }
  }

  lemma NextEndsInArea(m: Machine, t: Ideal, e: Event, u: Setup, x0: int, y0: int, maxTravel: Point)
    requires SquareRoot(u.root) && Coherent(m, t, x0, y0) && Enabled(m, e, u) && 0.0 < u.scale.x && 0.0 < u.scale.y
    requires e.Line? ==> !CheckTravelLimits(e.target, maxTravel)
    requires EndsInArea(AllMoves(WorkOf(m.main), t), x0, y0, maxTravel, u.scale)
    ensures Can(m, e, u) && Coherent(Next(m, e, u), NextIdeal(m, e, t), x0, y0)
    ensures EndsInArea(AllMoves(WorkOf(Next(m, e, u).main), NextIdeal(m, e, t)), x0, y0, maxTravel, u.scale)
  {
    hide Optimal, Execution.OnCourse, SoundBlocks, Linked;
    hide M.Can, M.Enabled, M.Next, NextIdeal, AllMoves, EndsInArea, InArea, StepsOf, CheckTravelLimits;
    NextCoherent(m, t, x0, y0, e, u);
    NextPosition(m, e, u);
    if Added(m, e, u) != [] {
      TargetInArea(e.target, maxTravel, u.scale);
    }
    var r := Next(m, e, u);
    EndsStayInArea(AllMoves(WorkOf(m.main), t), Added(m, e, u), WorkOf(r.main), r.rings, NextIdeal(m, e, t),
                   x0, y0, maxTravel, u.scale);
  }

  lemma StartEndsInArea(m: Machine, maxTravel: Point, scale: Point)
    requires Starts(m) && InArea(m.rings.x, m.rings.y, maxTravel, scale)
    ensures AllMoves(WorkOf(m.main), NOT_BEGUN) == []
    ensures EndsInArea(AllMoves(WorkOf(m.main), NOT_BEGUN), m.rings.x, m.rings.y, maxTravel, scale)
  {
    assert Travel([], X, 0) == 0 == Travel([], Y, 0);
  }

  lemma {:induction false} RunEndsInArea(ms: seq<Machine>, es: seq<Event>, u: Setup, maxTravel: Point, i: nat)
    requires SquareRoot(u.root) && Run(ms, es, u) && Gated(es, maxTravel) && i < |ms|
    requires 0.0 < u.scale.x && 0.0 < u.scale.y && InArea(ms[0].rings.x, ms[0].rings.y, maxTravel, u.scale)
    ensures Coherent(ms[i], Traced(ms, es, i), ms[0].rings.x, ms[0].rings.y)
    ensures EndsInArea(AllMoves(WorkOf(ms[i].main), Traced(ms, es, i)), ms[0].rings.x, ms[0].rings.y, maxTravel,
                       u.scale)
  {
    hide Coherent, EndsInArea, InArea, M.Can, M.Enabled, M.Next, NextIdeal, AllMoves, CheckTravelLimits;
    RunIsCoherent(ms, es, u, i);
    if i == 0 {
      StartEndsInArea(ms[0], maxTravel, u.scale);
    } else {
      RunEndsInArea(ms, es, u, maxTravel, i - 1);
      assert Follows(ms, es, u, i - 1);
      NextEndsInArea(ms[i - 1], Traced(ms, es, i - 1), es[i - 1], u, ms[0].rings.x, ms[0].rings.y, maxTravel);
    }
  }

  lemma TracedInArea(w: Work, rings: Rings, t: Ideal, x0: int, y0: int, maxTravel: Point, scale: Point)
    requires InStep(w, rings, t, x0, y0) && EndsInArea(AllMoves(w, t), x0, y0, maxTravel, scale)
    ensures InArea(rings.x, rings.y, maxTravel, scale)
  {
    hide Fits, SegmentsLinked, BlocksLinked, CountersLinked;
    if t.exec == -1 {
      assert InArea(x0 + Travel(AllMoves(w, t), X, 0), y0 + Travel(AllMoves(w, t), Y, 0), maxTravel, scale);
    } else {
      BetweenTheEnds(t, w.remaining, X);
      BetweenTheEnds(t, w.remaining, Y);
      EndIsInArea(w, t, t.exec, x0, y0, maxTravel, scale);
      EndIsInArea(w, t, t.exec + 1, x0, y0, maxTravel, scale);
    }
  }

  lemma EndIsInArea(w: Work, t: Ideal, n: nat, x0: int, y0: int, maxTravel: Point, scale: Point)
    requires n <= |t.moves| && EndsInArea(AllMoves(w, t), x0, y0, maxTravel, scale)
    ensures InArea(x0 + Travel(t.moves, X, n), y0 + Travel(t.moves, Y, n), maxTravel, scale)
  {
    TravelPrefix(t.moves, w.waiting, X, n);
    TravelPrefix(t.moves, w.waiting, Y, n);
    assert InArea(x0 + Travel(AllMoves(w, t), X, n), y0 + Travel(AllMoves(w, t), Y, n), maxTravel, scale);
  }

  /** Started in the working area, the machine is in it at every tick of every run. */
  lemma StaysInArea(ms: seq<Machine>, es: seq<Event>, u: Setup, maxTravel: Point, i: nat)
    requires SquareRoot(u.root) && Run(ms, es, u) && Gated(es, maxTravel) && i < |ms|
    requires 0.0 < u.scale.x && 0.0 < u.scale.y && InArea(ms[0].rings.x, ms[0].rings.y, maxTravel, u.scale)
    ensures InArea(ms[i].rings.x, ms[i].rings.y, maxTravel, u.scale)
  {
    RunEndsInArea(ms, es, u, maxTravel, i);
    TracedInArea(WorkOf(ms[i].main), ms[i].rings, Traced(ms, es, i), ms[0].rings.x, ms[0].rings.y, maxTravel, u.scale);
  }
}
