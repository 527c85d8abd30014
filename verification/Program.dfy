/**
 The parser and the motion pipeline together: lines are parsed, what they plan comes to the gateway in order and is
 handed to the planner or turned away, and the pipeline goes on in any interleaving with that. The machine has no Z
 axis.
 */
module Program {
  import opened Blocks
  import opened PlannerQueue
  import opened Profile
  import opened Bresenham
  import opened Tracer
  import opened Machine
  import M = Machine
  import Execution
  import Gcode
  import Pipeline
  import SoftLimits
  import SegmentRings

  /** The parser, the targets it has planned and the planner has not taken yet, the pipeline and its tracing. */
  datatype State = State(parser: Gcode.State, planned: seq<Point>, machine: Machine, traced: Ideal)

  /** What does not change in a run: that of the pipeline, and the soft limits. */
  datatype Setup = Setup(pipeline: M.Setup, softLimits: bool, maxTravel: Point)

  /** A line is parsed, a target is turned away at the gateway, or something happens in the pipeline. */
  datatype Step = Parse(input: Gcode.Input) | TurnAway | Act(event: Event)

  predicate Traceable(t: Ideal) {
    -1 <= t.exec < |t.moves| && forall k :: 0 <= k < |t.moves| ==> WellFormed(t.moves[k])
  }

  /**
   Pulses along Z so far, whatever their direction, as a tracer with a Z counter would make them. This machine's has
   none, and moves nothing along Z in any case.
   */
  function PulsesZ(t: Ideal): int
    requires Traceable(t)
  {
    if t.exec == -1 then 0
    else
      var m := t.moves[t.exec];
      assert WellFormed(m);
      StepsZ(t.moves, t.exec) + Pulses(m.stepsZ, m.events, t.units)
  }

  function StepsZ(moves: seq<Move>, n: nat): nat
    requires n <= |moves|
  {
    if n == 0 then 0 else StepsZ(moves, n - 1) + moves[n - 1].stepsZ
  }

  /**
   A machine that has not been moved along Z is seen at zero. The next target planned goes to the planner if it passes
   the gateway, and is turned away otherwise.
   */
  ghost predicate Enabled(s: State, e: Step, u: Setup) {
    match e
    case Parse(input) => Traceable(s.traced) && PulsesZ(s.traced) == 0 ==> input.world.machine.z == 0.0
    case TurnAway => s.planned != [] && !SoftLimits.Passes(s.planned[0], u.softLimits, u.maxTravel)
    case Act(event) =>
      && M.Enabled(s.machine, event, u.pipeline)
      && (event.Line? ==>
            && s.planned != [] && event.target == s.planned[0]
            && SoftLimits.Passes(event.target, u.softLimits, u.maxTravel))
  }

  /** What a step does is defined. */
  predicate Can(s: State, e: Step, u: Setup) {
    && (e.Parse? ==> |s.parser.memory| == 8 && s.parser.system < 6 && s.parser.plane == 0)
    && (e.TurnAway? || (e.Act? && e.event.Line?) ==> s.planned != [])
    && (e.Act? ==> M.Can(s.machine, e.event, u.pipeline))
  }

  function Next(s: State, e: Step, u: Setup): State
    requires Can(s, e, u)
  {
    match e
    case Parse(input) =>
      var (parser, planned) := Gcode.Line(s.parser, input.jog, input.words, input.world);
      s.(parser := parser, planned := s.planned + planned)
    case TurnAway => s.(planned := s.planned[1..])
    case Act(event) =>
      s.(planned := if event.Line? then s.planned[1..] else s.planned,
         machine := M.Next(s.machine, event, u.pipeline), traced := NextIdeal(s.machine, event, s.traced))
  }

  /** From rest, with parser and planner at Z zero; nothing is asked of stored positions and offsets. */
  predicate Starts(s: State) {
    && Gcode.Flat(s.parser) && s.planned == []
    && M.Starts(s.machine) && s.machine.main.queue.position.z == 0
    && s.traced == NOT_BEGUN
  }

  // ---------------------------------------------------------------------------------------------
  // No Z

  predicate NoZ(moves: seq<Move>) {
    forall k :: 0 <= k < |moves| ==> moves[k].stepsZ == 0
  }

  predicate AllFlat(targets: seq<Point>) {
    forall k :: 0 <= k < |targets| ==> targets[k].z == 0.0
  }

  ghost predicate InPlane(s: State, x0: int, y0: int) {
    && Gcode.Flat(s.parser) && AllFlat(s.planned)
    && Coherent(s.machine, s.traced, x0, y0)
    && s.machine.main.queue.position.z == 0
    && NoZ(AllMoves(WorkOf(s.machine.main), s.traced))
  }

  lemma {:induction false} NoStepsZ(moves: seq<Move>, n: nat)
    requires NoZ(moves) && n <= |moves|
    ensures StepsZ(moves, n) == 0
  {
    if 0 < n {
      NoStepsZ(moves, n - 1);
    }
  }

  /** Where no move has steps along Z there is no pulse along Z. */
  lemma NoPulseZ(t: Ideal)
    requires Traceable(t) && NoZ(t.moves)
    ensures PulsesZ(t) == 0
  {
    if 0 <= t.exec {
      NoStepsZ(t.moves, t.exec);
      assert WellFormed(t.moves[t.exec]) && t.moves[t.exec].stepsZ == 0;
      PulsesUnique(0, t.moves[t.exec].events, t.units, 0, 4 * t.moves[t.exec].events);
    }
  }

  lemma StillTraceable(w: Work, rings: SegmentRings.Rings, t: Ideal, x0: int, y0: int)
    requires InStep(w, rings, t, x0, y0) && NoZ(AllMoves(w, t))
    ensures Traceable(t) && NoZ(t.moves)
  {
    forall k | 0 <= k < |t.moves|
      ensures t.moves[k].stepsZ == 0
    {
      assert AllMoves(w, t)[k] == t.moves[k];
    }
  }

  lemma ParseInPlane(s: State, input: Gcode.Input, u: Setup, x0: int, y0: int)
    requires InPlane(s, x0, y0) && Enabled(s, Parse(input), u)
    ensures Can(s, Parse(input), u) && InPlane(Next(s, Parse(input), u), x0, y0)
  {
    hide InStep, Gcode.Line;
    StillTraceable(WorkOf(s.machine.main), s.machine.rings, s.traced, x0, y0);
    NoPulseZ(s.traced);
    Gcode.LineIsFlat(s.parser, input.jog, input.words, input.world);
  }

  /** A target in the plane leads to no step along Z. */
  lemma AddedHasNoZ(m: Machine, e: Event, u: M.Setup)
    requires m.main.queue.position.z == 0 && (e.Line? ==> e.target.z == 0.0)
    ensures NoZ(Added(m, e, u)) && (e.Line? ==> StepsOf(e.target, u.scale).z == 0)
  {
    if e.Line? {
      Gcode.FlatTargetPlansNoZ(e.target, m.main.queue.position, u.scale);
    }
  }

  lemma ActInPlane(s: State, e: Event, u: Setup, x0: int, y0: int)
    requires SquareRoot(u.pipeline.root) && InPlane(s, x0, y0) && Enabled(s, Act(e), u)
    ensures Can(s, Act(e), u) && InPlane(Next(s, Act(e), u), x0, y0)
  {
    hide Execution.Good, InStep, AllMoves, NextIdeal, M.Can, M.Enabled, M.Next, Added;
    NextCoherent(s.machine, s.traced, x0, y0, e, u.pipeline);
    Pipeline.NextPosition(s.machine, e, u.pipeline);
    AddedHasNoZ(s.machine, e, u.pipeline);
  }

  lemma NextInPlane(s: State, e: Step, u: Setup, x0: int, y0: int)
    requires SquareRoot(u.pipeline.root) && InPlane(s, x0, y0) && Enabled(s, e, u)
    ensures Can(s, e, u) && InPlane(Next(s, e, u), x0, y0)
  {
    hide Execution.Good, InStep, AllMoves, NextIdeal, M.Can, M.Enabled, M.Next, Gcode.Line;
    match e
    case Parse(input) => ParseInPlane(s, input, u, x0, y0);
    case TurnAway =>
    case Act(event) => ActInPlane(s, event, u, x0, y0);
  }

  /** A run: the states between the steps. */
  ghost predicate Run(states: seq<State>, steps: seq<Step>, u: Setup) {
    && |states| == |steps| + 1
    && Starts(states[0])
    && forall i :: 0 <= i < |steps| ==> Follows(states, steps, u, i)
  }

  /** Step `i` of the run was possible and took state `i` to the next. */
  ghost predicate Follows(states: seq<State>, steps: seq<Step>, u: Setup, i: nat)
    requires i < |steps| < |states|
  {
    Enabled(states[i], steps[i], u) && (Can(states[i], steps[i], u) ==> states[i + 1] == Next(states[i], steps[i], u))
  }

  lemma StartInPlane(s: State)
    requires Starts(s)
    ensures InPlane(s, s.machine.rings.x, s.machine.rings.y)
  {
    StartsCoherent(s.machine);
  }

  lemma StepFollows(states: seq<State>, steps: seq<Step>, u: Setup, i: nat)
    requires Run(states, steps, u) && i < |steps|
    ensures |states| == |steps| + 1 && Enabled(states[i], steps[i], u)
    ensures Can(states[i], steps[i], u) ==> states[i + 1] == Next(states[i], steps[i], u)
  {
    hide Enabled, Can, Next;
    assert Follows(states, steps, u, i);
  }

  lemma {:induction false} RunIsInPlane(states: seq<State>, steps: seq<Step>, u: Setup, i: nat)
    requires SquareRoot(u.pipeline.root) && Run(states, steps, u) && i < |states|
    ensures InPlane(states[i], states[0].machine.rings.x, states[0].machine.rings.y)
  {
    hide Enabled, Can, Next, InPlane, Follows;
    if i == 0 {
      StartInPlane(states[0]);
    } else {
      RunIsInPlane(states, steps, u, i - 1);
      StepFollows(states, steps, u, i - 1);
      NextInPlane(states[i - 1], steps[i - 1], u, states[0].machine.rings.x, states[0].machine.rings.y);
    }
  }

  /**
   At every instant of every run, whatever the lines hold and wherever stored positions are: the parser is at Z zero
   without tool offset in the XY plane, the planner is at Z zero, no block queued has a step along Z, no move ever
   queued had one, and even a tracer with a Z counter would have made no pulse.
   */
  lemma NothingMovesZ(states: seq<State>, steps: seq<Step>, u: Setup, i: nat)
    requires SquareRoot(u.pipeline.root) && Run(states, steps, u) && i < |states|
    ensures Gcode.Flat(states[i].parser)
    ensures states[i].machine.main.queue.position.z == 0
    ensures forall k :: 0 <= k < |states[i].machine.main.queue.blocks| ==>
              states[i].machine.main.queue.blocks[k].move.stepsZ == 0
    ensures NoZ(states[i].traced.moves)
    ensures Traceable(states[i].traced) && PulsesZ(states[i].traced) == 0
  {
    var s := states[i];
    RunIsInPlane(states, steps, u, i);
    StillTraceable(
      WorkOf(s.machine.main), s.machine.rings, s.traced, states[0].machine.rings.x, states[0].machine.rings.y);
    NoPulseZ(s.traced);
    forall k | 0 <= k < |s.machine.main.queue.blocks|
      ensures s.machine.main.queue.blocks[k].move.stepsZ == 0
    {
      QueuedHasNoZ(s, k, states[0].machine.rings.x, states[0].machine.rings.y);
    }
  }

  /** The blocks queued are among the moves of the run. */
  lemma QueuedHasNoZ(s: State, k: nat, x0: int, y0: int)
    requires InPlane(s, x0, y0) && k < |s.machine.main.queue.blocks|
    ensures s.machine.main.queue.blocks[k].move.stepsZ == 0
  {
    hide SegmentRings.Linked, Travel, Execution.OnCourse, Optimal, SoundBlocks;
    var w, t := WorkOf(s.machine.main), s.traced;
    if w.current == [] {
      assert AllMoves(w, t)[|t.moves| + k] == w.waiting[k];
    } else if k == 0 {
      assert AllMoves(w, t)[|t.moves| - 1] == w.current[0];
    } else {
      assert AllMoves(w, t)[|t.moves| + k - 1] == w.waiting[k - 1];
    }
  }

  // ---------------------------------------------------------------------------------------------
  // The working area

  /** The ends of all moves of the run, from its start on, are in the working area. */
  ghost predicate Confined(s: State, u: Setup, x0: int, y0: int) {
    && InPlane(s, x0, y0)
    && SoftLimits.EndsInArea(AllMoves(WorkOf(s.machine.main), s.traced), x0, y0, u.maxTravel, u.pipeline.scale)
  }

  lemma NextConfined(s: State, e: Step, u: Setup, x0: int, y0: int)
    requires SquareRoot(u.pipeline.root) && Confined(s, u, x0, y0) && Enabled(s, e, u) && u.softLimits
    requires 0.0 < u.pipeline.scale.x && 0.0 < u.pipeline.scale.y
    ensures Can(s, e, u) && Confined(Next(s, e, u), u, x0, y0)
  {
    NextInPlane(s, e, u, x0, y0);
    if e.Act? {
      SoftLimits.NextEndsInArea(s.machine, s.traced, e.event, u.pipeline, x0, y0, u.maxTravel);
    }
  }

  lemma {:induction false} RunIsConfined(states: seq<State>, steps: seq<Step>, u: Setup, i: nat)
    requires SquareRoot(u.pipeline.root) && Run(states, steps, u) && i < |states| && u.softLimits
    requires 0.0 < u.pipeline.scale.x && 0.0 < u.pipeline.scale.y
    requires SoftLimits.InArea(states[0].machine.rings.x, states[0].machine.rings.y, u.maxTravel, u.pipeline.scale)
    ensures Confined(states[i], u, states[0].machine.rings.x, states[0].machine.rings.y)
  {
    hide Enabled, Can, Next, InPlane, Follows, SoftLimits.EndsInArea, SoftLimits.InArea;
    if i == 0 {
      StartInPlane(states[0]);
      SoftLimits.StartEndsInArea(states[0].machine, u.maxTravel, u.pipeline.scale);
    } else {
      RunIsConfined(states, steps, u, i - 1);
      StepFollows(states, steps, u, i - 1);
      NextConfined(states[i - 1], steps[i - 1], u, states[0].machine.rings.x, states[0].machine.rings.y);
    }
  }

  /**
   With soft limits on and a start in the working area, whatever lines, arcs and jogs are parsed, the machine is in the
   area at every tick of every run: the gateway lets no target outside through, and the way to one inside stays inside.
   */
  lemma NothingLeavesArea(states: seq<State>, steps: seq<Step>, u: Setup, i: nat)
    requires SquareRoot(u.pipeline.root) && Run(states, steps, u) && i < |states| && u.softLimits
    requires 0.0 < u.pipeline.scale.x && 0.0 < u.pipeline.scale.y
    requires SoftLimits.InArea(states[0].machine.rings.x, states[0].machine.rings.y, u.maxTravel, u.pipeline.scale)
    ensures SoftLimits.InArea(states[i].machine.rings.x, states[i].machine.rings.y, u.maxTravel, u.pipeline.scale)
  {
    var s := states[i];
    RunIsConfined(states, steps, u, i);
    SoftLimits.TracedInArea(WorkOf(s.machine.main), s.machine.rings, s.traced, states[0].machine.rings.x,
                            states[0].machine.rings.y, u.maxTravel, u.pipeline.scale);
  }
}
