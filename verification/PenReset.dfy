/**
 The pen servo under resets. Pen commands come from the main program; resets come from it and, at any moment,
 from interrupts. A reset must leave the pen up until everything has been initialised again.
 */
module PenReset {

  /**
   Where the main program is: at work, in its own reset (the flag checked, or set), waiting in the critical
   alarm for another reset, or initialising (flags to be cleared, or pen to be set up).
   */
  datatype Place = Working | Checked | Flagged | Waiting | Clearing | Starting

  /**
   `flag` is the reset flag, `alarm` a critical alarm, `abort` the request to return to initialisation.
   `lifted` is not part of the program: it records that a reset which set the flag has run to its end and the
   initialisation after it has not.
   */
  datatype State = State(place: Place, penDown: bool, flag: bool, alarm: bool, abort: bool, lifted: bool)

  /** Steps of the main program, and the two interrupts. Interrupts run as a whole. */
  datatype Step =
    | PenCommand(down: bool)
    | CheckFlag
    | SetFlag
    | LiftPen
    | RaiseAlarm
    | EnterCritical
    | LeaveCritical
    | RequestAbort
    | Return
    | ClearFlags
    | Initialise
    | ResetInterrupt
    | LimitInterrupt

  predicate Enabled(s: State, e: Step) {
    match e
    case PenCommand(down) => s.place == Working
    case CheckFlag => s.place == Working
    case SetFlag => s.place == Checked
    case LiftPen => s.place == Flagged
    case RaiseAlarm => s.place == Working && s.flag
    case EnterCritical => s.place == Working && s.alarm
    case LeaveCritical => s.place == Waiting && s.flag
    case RequestAbort => s.place == Working && s.flag
    case Return => s.place == Working && s.abort
    case ClearFlags => s.place == Clearing
    case Initialise => s.place == Starting
    case ResetInterrupt => true
    case LimitInterrupt => s.place != Waiting && !s.alarm
  }

  /** A whole reset: it does nothing if the flag is set already. */
  function Reset(s: State): State {
    if s.flag then s else s.(flag := true, penDown := false, lifted := true)
  }

  function Next(s: State, e: Step): State
    requires Enabled(s, e)
  {
    match e
    case PenCommand(down) => if !s.abort && !s.flag then s.(penDown := down) else s
    case CheckFlag => if s.flag then s else s.(place := Checked)
    case SetFlag => s.(place := Flagged, flag := true)
    case LiftPen => s.(place := Working, penDown := false, lifted := true)
    case RaiseAlarm => s.(alarm := true)
    case EnterCritical => s.(place := Waiting, flag := false)
    case LeaveCritical => s.(place := Working, alarm := false)
    case RequestAbort => s.(abort := true)
    case Return => s.(place := Clearing, abort := false)
    case ClearFlags => s.(place := Starting, flag := false, alarm := false)
    case Initialise => s.(place := Working, penDown := false, lifted := s.flag)
    case ResetInterrupt => Reset(s)
    case LimitInterrupt => Reset(s).(alarm := true)
  }

  /** As at power-up, wherever the servo may be. */
  predicate PowerUp(s: State) {
    s.place == Clearing && !s.abort && !s.lifted && !s.flag && !s.alarm
  }

  /** What every interleaving keeps. */
  predicate Safe(s: State) {
    && (s.lifted ==> !s.penDown)
    && (s.lifted ==> s.flag || s.abort || s.place == Waiting || s.place == Clearing || s.place == Starting)
    && (s.flag ==> s.lifted || s.place == Flagged)
    && (s.place == Flagged ==> s.flag)
    && (s.alarm ==> s.flag || s.place == Waiting)
    && (s.place == Waiting ==> s.lifted)
    && (s.abort ==> s.lifted && s.place != Clearing && s.place != Starting)
  }

  lemma NextIsSafe(s: State, e: Step)
    requires Safe(s) && Enabled(s, e)
    ensures Safe(Next(s, e))
  {
  }

  /** A run of any interleaving. */
  ghost predicate Run(states: seq<State>, steps: seq<Step>) {
    && |states| == |steps| + 1
    && PowerUp(states[0])
    && forall i :: 0 <= i < |steps| ==> Follows(states, steps, i)
  }

  ghost predicate Follows(states: seq<State>, steps: seq<Step>, i: nat)
    requires i < |steps| < |states|
  {
    Enabled(states[i], steps[i]) && states[i + 1] == Next(states[i], steps[i])
  }

  lemma {:induction false} RunIsSafe(states: seq<State>, steps: seq<Step>, i: nat)
    requires Run(states, steps) && i < |states|
    ensures Safe(states[i])
  {
    if 0 < i {
      RunIsSafe(states, steps, i - 1);
      assert Follows(states, steps, i - 1);
      NextIsSafe(states[i - 1], steps[i - 1]);
    }
  }

  /** Step `i` completes a reset that set the flag. */
  predicate CompletesReset(s: State, e: Step) {
    e == LiftPen || ((e == ResetInterrupt || e == LimitInterrupt) && !s.flag)
  }

  /**
   From the moment a reset that set the flag completes, the pen is up, through the critical alarm as well, and
   until the next initialisation completes no step puts it down. This holds however interrupts and pen
   commands fall in between.
   */
  lemma {:induction false} PenStaysUp(states: seq<State>, steps: seq<Step>, i: nat, j: nat)
    requires Run(states, steps) && i < j < |states|
    requires Enabled(states[i], steps[i]) && CompletesReset(states[i], steps[i])
    requires forall k :: i < k < j ==> steps[k] != Initialise
    ensures states[j].lifted && !states[j].penDown
  {
    RunIsSafe(states, steps, j);
    assert Follows(states, steps, j - 1);
    if i + 1 < j {
      PenStaysUp(states, steps, i, j - 1);
    }
  }

  /** A step puts the pen down: a command of the main program while neither a reset nor an abort is pending. */
  predicate PutsDown(s: State, e: Step) {
    e == PenCommand(true) && !s.flag && !s.abort
  }

  /** A step that does not lift the pen: no initialisation, no reset that completes, no command that is heeded. */
  predicate LeavesDown(s: State, e: Step) {
    e != Initialise && !CompletesReset(s, e) && (e == PenCommand(false) ==> s.flag || s.abort)
  }

  lemma DownOneStep(s: State, e: Step)
    requires Safe(s) && Enabled(s, e) && Next(s, e).penDown
    ensures PutsDown(s, e) || (s.penDown && LeavesDown(s, e))
  {
  }

  /** No step from `i` up to state `j` lifts the pen. */
  ghost predicate LeftDown(states: seq<State>, steps: seq<Step>, i: nat, j: nat)
    requires i <= j < |states| == |steps| + 1
  {
    forall k :: i <= k < j ==> LeavesDown(states[k], steps[k])
  }

  /**
   After the first initialisation the pen is only ever down because it was put down by a command, and since then
   there has been no initialisation, no completed reset, and no command to lift it that was heeded.
   */
  lemma {:induction false} DownByCommand(states: seq<State>, steps: seq<Step>, j: nat)
    requires Run(states, steps) && j < |states| && states[j].penDown && !LeftDown(states, steps, 0, j)
    ensures exists i :: 0 <= i < j && PutsDown(states[i], steps[i]) && LeftDown(states, steps, i + 1, j)
  {
    hide Next, Enabled, Safe, LeavesDown, PutsDown;
    RunIsSafe(states, steps, j - 1);
    assert Follows(states, steps, j - 1);
    DownOneStep(states[j - 1], steps[j - 1]);
    if PutsDown(states[j - 1], steps[j - 1]) {
      assert LeftDown(states, steps, j - 1 + 1, j);
    } else {
      DownByCommand(states, steps, j - 1);
      var i :| 0 <= i < j - 1 && PutsDown(states[i], steps[i]) && LeftDown(states, steps, i + 1, j - 1);
      assert LeftDown(states, steps, i + 1, j);
    }
  }

  /** A command that is heeded puts the pen down, and down it stays until a step lifts it. */
  lemma {:induction false} DownSince(states: seq<State>, steps: seq<Step>, i: nat, j: nat)
    requires Run(states, steps) && i < j < |states| && PutsDown(states[i], steps[i])
    requires LeftDown(states, steps, i + 1, j)
    ensures states[j].penDown
  {
    assert Follows(states, steps, j - 1);
    if i + 1 < j {
      DownSince(states, steps, i, j - 1);
    }
  }

  /** Once something has lifted it, the pen is down exactly when it was put down and nothing has lifted it since. */
  lemma DownExactly(states: seq<State>, steps: seq<Step>, j: nat)
    requires Run(states, steps) && j < |states| && !LeftDown(states, steps, 0, j)
    ensures states[j].penDown
            <==> exists i :: 0 <= i < j && PutsDown(states[i], steps[i]) && LeftDown(states, steps, i + 1, j)
  {
    hide Next, Enabled, Safe, LeavesDown, PutsDown, LeftDown;
    if states[j].penDown {
      DownByCommand(states, steps, j);
    }
    if exists i :: 0 <= i < j && PutsDown(states[i], steps[i]) && LeftDown(states, steps, i + 1, j) {
      var i :| 0 <= i < j && PutsDown(states[i], steps[i]) && LeftDown(states, steps, i + 1, j);
      DownSince(states, steps, i, j);
    }
  }

  /**
   A reset from an interrupt returns with the pen still down in exactly one case: the main program is inside
   its own reset, between setting the flag and lifting the pen. The next thing it does is to lift it.
   */
  lemma InterruptedReset(states: seq<State>, steps: seq<Step>, i: nat)
    requires Run(states, steps) && i < |states|
    ensures Reset(states[i]).penDown <==> states[i].place == Flagged && states[i].penDown
    ensures states[i].place == Flagged ==>
              forall e :: Enabled(states[i], e) ==> e == LiftPen || e == ResetInterrupt || e == LimitInterrupt
    ensures states[i].place == Flagged ==> !Next(states[i], LiftPen).penDown
  {
    RunIsSafe(states, steps, i);
  }

  /** That case does occur: a reset command comes while the pen is down, and an interrupt before the pen is lifted. */
  lemma ResetMidway()
    ensures var clear := State(Clearing, false, false, false, false, false);
            var steps := [ClearFlags, Initialise, PenCommand(true), CheckFlag, SetFlag];
            exists states: seq<State> ::
              Run(states, steps) && states[0] == clear && states[5].place == Flagged && Reset(states[5]).penDown
  {
    var steps := [ClearFlags, Initialise, PenCommand(true), CheckFlag, SetFlag];
    var s0 := State(Clearing, false, false, false, false, false);
    var s1, s2 := s0.(place := Starting), s0.(place := Working);
    var s3 := s2.(penDown := true);
    var s4, s5 := s3.(place := Checked), s3.(place := Flagged, flag := true);
    var states := [s0, s1, s2, s3, s4, s5];
    forall i | 0 <= i < |steps|
      ensures Follows(states, steps, i)
    {
    }
    assert Run(states, steps);
  }
}
