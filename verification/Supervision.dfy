/**
 The run-state machine and the preparation together, over whole runs: calls of the realtime system, jogs, moves queued,
 and segments cut, in any interleaving.
 */
module Supervision {
  import opened PlannerQueue
  import opened Profile
  import Execution
  import Holds
  import P = Protocol

  datatype State = State(system: P.System, main: Execution.State)

  /**
   A call of the realtime system, where `machine` is the position it would find the machine at; a jog begun from idle;
   a move queued; or a step of the preparation.
   */
  datatype Step =
    | Call(flags: P.Flags, machine: Steps)
    | BeginJog
    | Append(target: Steps, geometry: Geometry)
    | Load
    | CutSegment

  /** Segments are prepared in motion and in a hold, not at rest. */
  predicate Preparing(run: P.Run) {
    run == P.Cycle || run == P.Hold || run == P.Jog || run == P.Sleep
  }

  function EventOf(e: Step): Execution.Event
    requires !e.Call? && !e.BeginJog?
  {
    match e
    case Append(target, g) => Execution.Append(target, g)
    case Load => Execution.Load
    case CutSegment => Execution.CutSegment
  }

  /** Neither a motion cancel, which only probing raises, nor a soft limit, which ends in a reset. */
  predicate Enabled(s: State, e: Step) {
    match e
    case Call(flags, machine) => P.Ordinary(P.Call(flags))
    case BeginJog => s.system.run == P.Idle
    case Append(target, g) => Execution.Enabled(s.main, EventOf(e))
    case _ => Preparing(s.system.run) && Execution.Enabled(s.main, EventOf(e))
  }

  /** After a jog cancel everything queued is dropped, and the planner is where the machine is. */
  function Flushed(machine: Steps): Execution.State {
    Execution.AT_REST.(queue := Execution.AT_REST.queue.(position := machine))
  }

  /** What both agree on, and what each keeps by itself. */
  ghost predicate Joined(s: State) {
    P.InOrder(s.system) && Execution.Good(s.main) && P.Agrees(s.system, s.main)
  }

  /** What a call does to the preparation. */
  ghost function Called(s: State, flags: P.Flags, machine: Steps): Execution.State
    requires Joined(s) && P.Ordinary(P.Call(flags))
  {
    var a := P.ActionsOf(s.system, flags);
    P.CallsAreEnabled(s.system, flags, s.main);
    if a.flush then Flushed(machine) else P.Driven(s.main, a)
  }

  /** The cut that ends the preparation sets the bit that says so. */
  ghost function Next(s: State, e: Step, root: real -> real): State
    requires SquareRoot(root) && Joined(s) && Enabled(s, e)
  {
    match e
    case Call(flags, machine) => State(P.After(s.system, flags), Called(s, flags, machine))
    case BeginJog => s.(system := P.Next(s.system, P.BeginJog))
    case _ =>
      Execution.NextKeeps(s.main, EventOf(e), root);
      var main := Execution.Next(s.main, EventOf(e), root);
      State(if main.ended && !s.main.ended then P.Next(s.system, P.HoldCut) else s.system, main)
  }

  lemma FlushedIsGood(machine: Steps)
    ensures Execution.Good(Flushed(machine))
  {
  }

  lemma FlushEndsHold(s: P.System, f: P.Flags)
    requires P.ActionsOf(s, f).flush
    ensures !P.After(s, f).hold && !P.After(s, f).ended
  {
  }

  lemma CallKeeps(s: State, flags: P.Flags, machine: Steps)
    requires Joined(s) && P.Ordinary(P.Call(flags))
    ensures Joined(State(P.After(s.system, flags), Called(s, flags, machine)))
  {
    hide P.After, P.ActionsOf, P.Driven, Execution.Good, P.InOrder;
    P.CallsAreEnabled(s.system, flags, s.main);
    CallInOrder(s.system, flags);
    if P.ActionsOf(s.system, flags).flush {
      FlushEndsHold(s.system, flags);
      FlushedIsGood(machine);
    }
  }

  lemma CallInOrder(s: P.System, flags: P.Flags)
    requires P.InOrder(s) && P.Ordinary(P.Call(flags))
    ensures P.InOrder(P.After(s, flags))
  {
    P.NextInOrder(s, P.Call(flags));
  }

  /** Queueing and loading end nothing; a cut does only in a hold. */
  lemma EndsInHold(s: Execution.State, e: Step, root: real -> real)
    requires SquareRoot(root) && Execution.Good(s) && (e.Append? || e.Load? || e.CutSegment?)
    requires Execution.Enabled(s, EventOf(e)) && Execution.Can(s, EventOf(e))
    ensures var r := Execution.Next(s, EventOf(e), root);
            r.holding == s.holding && (s.ended ==> r.ended) && (r.ended && !s.ended ==> s.holding)
  {
    if e.CutSegment? {
      Execution.SegmentSteps(s);
      if Execution.Cut(s).ended {
        Holds.CutAtRest(s);
      }
    }
  }

  lemma PrepareKeeps(s: State, e: Step, root: real -> real)
    requires SquareRoot(root) && Joined(s) && Enabled(s, e) && (e.Append? || e.Load? || e.CutSegment?)
    ensures Joined(Next(s, e, root))
  {
    hide Execution.Good, Execution.Next, Execution.Can, Execution.Enabled;
    Execution.NextKeeps(s.main, EventOf(e), root);
    EndsInHold(s.main, e, root);
    var main := Execution.Next(s.main, EventOf(e), root);
    if main.ended && !s.main.ended {
      P.NextInOrder(s.system, P.HoldCut);
    }
  }

  lemma NextKeeps(s: State, e: Step, root: real -> real)
    requires SquareRoot(root) && Joined(s) && Enabled(s, e)
    ensures Joined(Next(s, e, root))
  {
    hide P.After, Execution.Good, Called, Execution.Next;
    match e
    case Call(flags, machine) => CallKeeps(s, flags, machine);
    case BeginJog => P.NextInOrder(s.system, P.BeginJog);
    case _ => PrepareKeeps(s, e, root);
  }

  /** A run from start-up, with the planner anywhere. */
  ghost predicate Run(states: seq<State>, steps: seq<Step>, root: real -> real) {
    && |states| == |steps| + 1
    && states[0] == State(P.AT_REST, Flushed(states[0].main.queue.position))
    && forall i :: 0 <= i < |steps| ==> Follows(states, steps, root, i)
  }

  ghost predicate Follows(states: seq<State>, steps: seq<Step>, root: real -> real, i: nat)
    requires i < |steps| < |states|
  {
    && Enabled(states[i], steps[i])
    && (SquareRoot(root) && Joined(states[i]) ==> states[i + 1] == Next(states[i], steps[i], root))
  }

  lemma {:induction false} RunIsJoined(states: seq<State>, steps: seq<Step>, root: real -> real, i: nat)
    requires SquareRoot(root) && Run(states, steps, root) && i < |states|
    ensures Joined(states[i])
  {
    hide Joined, Next, Enabled;
    if i == 0 {
      StartIsJoined(states[0].main.queue.position);
    } else {
      RunIsJoined(states, steps, root, i - 1);
      assert Follows(states, steps, root, i - 1);
      NextKeeps(states[i - 1], steps[i - 1], root);
    }
  }

  lemma StartIsJoined(position: Steps)
    ensures Joined(State(P.AT_REST, Flushed(position)))
  {
    FlushedIsGood(position);
  }

  /**
   At every point of every run the run-state machine and the preparation agree on whether a hold is under way and
   whether it has been cut to its end. At rest, in a cycle and in a jog that is not cancelled there is no hold: the plan
   is the greatest one. In the hold state exactly one of two things is so: the hold is under way, or it is complete, and
   then everything has been replanned.
   */
  lemma HoldsThroughout(states: seq<State>, steps: seq<Step>, root: real -> real, i: nat)
    requires SquareRoot(root) && Run(states, steps, root) && i < |states|
    ensures var s, e := states[i].system, states[i].main;
            && e.holding == s.hold && e.ended == s.ended
            && (s.run == P.Idle || s.run == P.Cycle || (s.run == P.Jog && !s.jogCancel) ==>
                  !e.holding && !e.ended && Holds.Greatest(e.queue))
            && (s.run == P.Hold ==> (s.holdComplete <==> !e.holding))
            && (s.run == P.Hold && s.holdComplete ==> Holds.Greatest(e.queue))
  {
    RunIsJoined(states, steps, root, i);
  }
}
