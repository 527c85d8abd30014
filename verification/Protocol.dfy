/**
 The run-state machine: what the flags raised by interrupts and commands do to the state of the system, and how
 that drives the planner and the preparation of segments.
 */
module Protocol {
  import Execution
  import PlannerQueue
  import Profile

  datatype Run = Idle | Cycle | Hold | Jog | Sleep | Alarm | Check

  /**
   The state, the suspend flags, and the two bits of step control that matter here: a hold under way, and the
   preparation at its end.
   */
  datatype System = System(run: Run, holdComplete: bool, motionCancel: bool, jogCancel: bool, hold: bool, ended: bool)

  /** The flags as read at the start of a call, and what else the call looks at. */
  datatype Flags = Flags(
    cycleStart: bool,
    feedHold: bool,
    motionCancel: bool,
    cycleStop: bool,
    sleep: bool,
    queued: bool,
    softLimit: bool)

  /** What a call does to the planner and the preparation, in this order. */
  datatype Actions = Actions(hold: bool, resume: bool, stop: bool, flush: bool)

  predicate Suspending(s: System) {
    s.motionCancel || s.jogCancel
  }

  predicate StartsHold(s: System, f: Flags) {
    (f.motionCancel || f.feedHold || f.sleep) && (s.run == Cycle || s.run == Jog) && !Suspending(s)
  }

  /** Feed hold, motion cancel and sleep. */
  function AfterHold(s: System, f: Flags): System {
    if !(f.motionCancel || f.feedHold || f.sleep) then s
    else
      var t :=
        if s.run == Alarm || s.run == Check then s
        else
          var begun := if StartsHold(s, f) then s.(hold := true, ended := false, jogCancel := s.run == Jog && !f.sleep)
            else s;
          var still := if s.run == Idle then begun.(holdComplete := true, motionCancel := false, jogCancel := false)
            else begun;
          var cancelled := if f.motionCancel && s.run != Jog then still.(motionCancel := true) else still;
          if f.feedHold && s.run != Jog && s.run != Sleep then cancelled.(run := Hold) else cancelled;
      if f.sleep then (if t.run == Alarm then t.(holdComplete := true, run := Sleep) else t.(run := Sleep)) else t
  }

  /** A start is only taken from rest, and not along with a request to stop. */
  predicate Starts(s: System, f: Flags) {
    f.cycleStart && !f.feedHold && !f.motionCancel && (s.run == Idle || (s.run == Hold && s.holdComplete))
  }

  function AfterStart(s: System, f: Flags): System {
    if !Starts(s, f) then s
    else System(if f.queued && !s.motionCancel then Cycle else Idle, false, false, false, false, false)
  }

  predicate StopsInHold(s: System, f: Flags) {
    f.cycleStop && (s.run == Hold || s.run == Sleep) && !f.softLimit && !s.jogCancel
  }

  /** The motion has come to an end: in a hold, everything is replanned; otherwise the system is idle. */
  function AfterStop(s: System, f: Flags): System {
    if !f.cycleStop then s
    else if StopsInHold(s, f) then s.(holdComplete := s.holdComplete || s.hold, hold := false)
    else System(Idle, false, false, false, s.hold && !s.jogCancel, s.ended && !s.jogCancel)
  }

  /** One call, without reset or alarm. */
  function After(s: System, f: Flags): System {
    AfterStop(AfterStart(AfterHold(s, f), f), f)
  }

  function ActionsOf(s: System, f: Flags): Actions {
    var held := AfterHold(s, f);
    var started := AfterStart(held, f);
    Actions(StartsHold(s, f), Starts(held, f), StopsInHold(started, f), f.cycleStop
      && !StopsInHold(started, f) && started.jogCancel)
  }

  class Controller {
    var run: Run
    var holdComplete: bool
    var motionCancel: bool
    var jogCancel: bool
    var hold: bool
    var ended: bool

    function State(): System
      reads this
    {
      System(run, holdComplete, motionCancel, jogCancel, hold, ended)
    }

    constructor ()
      ensures State() == System(Idle, false, false, false, false, false)
    {
      run, holdComplete, motionCancel, jogCancel, hold, ended := Idle, false, false, false, false, false;
    }

    /** One call of the realtime system, without reset or alarm; the actions are left to the caller. */
    method ExecRtSystem(f: Flags) returns (actions: Actions)
      modifies this
      ensures State() == After(old(State()), f) && actions == ActionsOf(old(State()), f)
    {
      var held := RequestHold(f);
      var resumed := RequestStart(f);
      var stopped, flushed := FinishCycle(f);
      actions := Actions(held, resumed, stopped, flushed);
    }

    method RequestHold(f: Flags) returns (held: bool)
      modifies this
      ensures State() == AfterHold(old(State()), f) && held == StartsHold(old(State()), f)
    {
      held := false;
      if f.motionCancel || f.feedHold || f.sleep {
        if run != Alarm && run != Check {
          if run == Cycle || run == Jog {
            if !motionCancel && !jogCancel {
              held := true;
              hold, ended := true, false;
              if run == Jog && !f.sleep {
                jogCancel := true;
              }
            }
          }
          if run == Idle {
            holdComplete, motionCancel, jogCancel := true, false, false;
          }
          if f.motionCancel && run != Jog {
            motionCancel := true;
          }
          if f.feedHold && run != Jog && run != Sleep {
            run := Hold;
          }
        }
        if f.sleep {
          if run == Alarm {
            holdComplete := true;
          }
          run := Sleep;
        }
      }
    }

    method RequestStart(f: Flags) returns (resumed: bool)
      modifies this
      ensures State() == AfterStart(old(State()), f) && resumed == Starts(old(State()), f)
    {
      resumed := false;
      if f.cycleStart && !f.feedHold && !f.motionCancel {
        if run == Idle || (run == Hold && holdComplete) {
          resumed := true;
          hold, ended := false, false;
          run := if f.queued && !motionCancel then Cycle else Idle;
          holdComplete, motionCancel, jogCancel := false, false, false;
        }
      }
    }

    method FinishCycle(f: Flags) returns (stopped: bool, flushed: bool)
      modifies this
      ensures State() == AfterStop(old(State()), f)
      ensures stopped == StopsInHold(old(State()), f)
      ensures flushed == (f.cycleStop && !StopsInHold(old(State()), f) && old(jogCancel))
    {
      stopped, flushed := false, false;
      if f.cycleStop {
        if (run == Hold || run == Sleep) && !f.softLimit && !jogCancel {
          stopped := true;
          if hold {
            holdComplete := true;
          }
          hold := false;
        } else {
          if jogCancel {
            flushed := true;
            hold, ended := false, false;
          }
          holdComplete, motionCancel, jogCancel := false, false, false;
          run := Idle;
        }
      }
    }
  }

  // ---------------------------------------------------------------------------------------------
  // Runs

  /** What happens to the system: a call, a jog begun from idle, or the preparation at the end of a hold. */
  datatype Happening = Call(flags: Flags) | BeginJog | HoldCut

  predicate Possible(s: System, h: Happening) {
    match h
    case Call(f) => true
    case BeginJog => s.run == Idle
    case HoldCut => s.hold
  }

  function Next(s: System, h: Happening): System {
    match h
    case Call(f) => After(s, f)
    case BeginJog => s.(run := Jog)
    case HoldCut => s.(ended := true)
  }

  /** Neither a motion cancel, which only probing raises, nor a soft limit, which ends in a reset. */
  predicate Ordinary(h: Happening) {
    h.Call? ==> !h.flags.motionCancel && !h.flags.softLimit
  }

  /** At rest or in motion there is no hold; a hold is either under way or complete. */
  predicate InOrder(s: System) {
    && s.run != Alarm && s.run != Check
    && !s.motionCancel
    && (s.run == Idle || s.run == Cycle || (s.run == Jog && !s.jogCancel) ==>
          !s.hold && !s.ended && !s.jogCancel && !s.holdComplete)
    && (s.run == Hold ==> !s.jogCancel)
    && (s.run == Hold ==> s.hold != s.holdComplete)
    && (s.holdComplete ==> !s.hold)
    && (s.jogCancel ==> s.hold || s.run == Sleep)
  }

  /** A call takes up motion again: a start without a request to stop, from idle or from the end of a hold. */
  predicate Resumes(s: System, f: Flags) {
    && f.cycleStart && !f.feedHold && !f.motionCancel && !f.sleep
    && (s.run == Idle || (s.run == Hold && s.holdComplete))
  }

  /**
   Where one call leads, for every combination of flags. The end of the motion leads to idle, unless it ends a hold
   or sleep; with a soft limit it always does. A start leads to a cycle exactly if something is queued.
   */
  lemma CallLeadsTo(s: System, f: Flags)
    requires InOrder(s)
    ensures var r := After(s, f).run;
            && (r == Cycle <==>
                !f.cycleStop && !f.sleep && !f.feedHold && (s.run == Cycle || (Resumes(s, f) && f.queued)))
            && (r == Jog <==> !f.cycleStop && !f.sleep && s.run == Jog)
            && (r == Hold <==>
                && !f.sleep && !(f.cycleStop && f.softLimit)
                && if f.feedHold then s.run != Jog && s.run != Sleep else s.run == Hold && !Resumes(s, f))
            && (r == Sleep <==>
                && (f.sleep || s.run == Sleep)
                && !(f.cycleStop && (f.softLimit || s.jogCancel)))
            && r != Alarm && r != Check
    ensures ActionsOf(s, f).stop <==> f.cycleStop && (After(s, f).run == Hold || After(s, f).run == Sleep)
    ensures ActionsOf(s, f).resume <==> Resumes(s, f)
    ensures ActionsOf(s, f).flush <==>
              && f.cycleStop && After(s, f).run == Idle
              && (s.jogCancel || (s.run == Jog && !f.sleep && (f.feedHold || f.motionCancel)))
    ensures After(s, f).run == Hold ==> (After(s, f).holdComplete <==> s.run == Idle || s.holdComplete || f.cycleStop)
  {
  }

  /** A start while a motion cancel is still noted leads to idle, whatever is queued, and clears it. */
  lemma StartAfterCancel(s: System, f: Flags)
    requires s.motionCancel && Resumes(s, f)
    ensures After(s, f).run == Idle && !After(s, f).motionCancel && ActionsOf(s, f).resume
  {
  }

  /** A motion cancel, as a probe raises it, is noted as such unless it meets a jog, which it ends as a jog cancel. */
  lemma CancelIsNoted(s: System, f: Flags)
    requires s.run != Alarm && s.run != Check && f.motionCancel && !f.cycleStop
    ensures After(s, f).motionCancel <==> s.run != Jog || s.motionCancel
    ensures s.run == Jog && !Suspending(s) && !f.sleep ==>
              After(s, f).jogCancel && After(s, f).hold && ActionsOf(s, f).hold
  {
  }

  lemma HoldInOrder(s: System, f: Flags)
    requires InOrder(s) && !f.motionCancel
    ensures InOrder(AfterHold(s, f))
  {
  }

  lemma StartInOrder(s: System, f: Flags)
    requires InOrder(s)
    ensures InOrder(AfterStart(s, f))
  {
  }

  lemma StopInOrder(s: System, f: Flags)
    requires InOrder(s) && !f.softLimit
    ensures InOrder(AfterStop(s, f))
  {
  }

  lemma NextInOrder(s: System, h: Happening)
    requires InOrder(s) && Possible(s, h) && Ordinary(h)
    ensures InOrder(Next(s, h))
  {
    if h.Call? {
      HoldInOrder(s, h.flags);
      StartInOrder(AfterHold(s, h.flags), h.flags);
      StopInOrder(AfterStart(AfterHold(s, h.flags), h.flags), h.flags);
    }
  }

  /** The two bits of step control are what the preparation goes by. */
  predicate Agrees(s: System, e: Execution.State) {
    e.holding == s.hold && e.ended == s.ended
  }

  /** What the actions of a call do to the preparation. */
  ghost function Driven(e: Execution.State, a: Actions): Execution.State
    requires Execution.Good(e)
    requires a.hold ==> Execution.Enabled(e, Execution.FeedHold)
  {
    var held := if a.hold then (Execution.HoldKeeps(e); Execution.Held(e)) else e;
    var resumed := if a.resume then held.(ended := false) else held;
    if a.stop then Execution.Stopped(resumed) else resumed
  }

  /**
   The protocol drives the preparation only through events that are enabled, and the two agree on what is under
   way: a hold is begun only from a motion that is not held, and a resume only comes when the hold is complete
   and everything has been replanned.
   */
  lemma CallsAreEnabled(s: System, f: Flags, e: Execution.State)
    requires InOrder(s) && Ordinary(Call(f)) && Execution.Good(e) && Agrees(s, e)
    ensures var a := ActionsOf(s, f);
            && (a.hold ==> Execution.Enabled(e, Execution.FeedHold))
            && (a.resume ==>
                  && !a.hold
                  && Execution.Enabled(e, Execution.Resume)
                  && (s.run == Idle || (s.run == Hold && s.holdComplete)))
            && Execution.Good(Driven(e, a))
            && (!a.flush ==> Agrees(After(s, f), Driven(e, a)))
  {
    var a, held := ActionsOf(s, f), AfterHold(s, f);
    HoldInOrder(s, f);
    CallFacts(s, f);
    if a.hold {
      Execution.HoldKeeps(e);
    }
    var h := if a.hold then Execution.Held(e) else e;
    var r := if a.resume then h.(ended := false) else h;
    ResumeKeeps(h, a.resume);
    if a.stop {
      Execution.StopKeeps(r);
    }
  }

  lemma CallFacts(s: System, f: Flags)
    requires InOrder(s) && Ordinary(Call(f))
    ensures var a := ActionsOf(s, f);
            && (a.hold ==> !s.hold && !s.ended)
            && (a.resume ==> !a.hold && !s.hold && (s.run == Idle || (s.run == Hold && s.holdComplete)))
            && var held := AfterHold(s, f);
               && (held.hold <==> s.hold || a.hold) && (held.ended <==> s.ended && !a.hold)
               && var started := AfterStart(held, f);
                  && (started.hold <==> held.hold) && (started.ended <==> held.ended && !a.resume)
                  && (!a.flush ==>
                        && (After(s, f).hold <==> started.hold && !a.stop)
                        && After(s, f).ended == started.ended)
  {
    HoldInOrder(s, f);
  }

  lemma ResumeKeeps(e: Execution.State, resume: bool)
    requires Execution.Good(e) && (resume ==> !e.holding)
    ensures Execution.Good(if resume then e.(ended := false) else e)
  {
  }

  /**
   A hold in a cycle is taken at once, a start before it is complete is not, and after the stop a start resumes the
   cycle: the actions are a hold, a replan and a resume, one at each step.
   */
  lemma HoldThenResume(s: System, hold: Flags, early: Flags, stop: Flags, start: Flags)
    requires InOrder(s) && s.run == Cycle
    requires Ordinary(Call(hold)) && hold.feedHold && !hold.sleep && !hold.cycleStop
    requires Ordinary(Call(early)) && early.cycleStart && !early.feedHold && !early.sleep && !early.cycleStop
    requires stop == Finished() && start == Started()
    ensures var held := After(s, hold);
            var waiting := After(held, early);
            var complete := After(Next(waiting, HoldCut), stop);
            var resumed := After(complete, start);
            && held.run == Hold && held.hold && ActionsOf(s, hold) == Actions(true, false, false, false)
            && waiting == held && ActionsOf(held, early) == Actions(false, false, false, false)
            && complete.run == Hold && complete.holdComplete && !complete.hold
            && ActionsOf(Next(waiting, HoldCut), stop) == Actions(false, false, true, false)
            && resumed == System(Cycle, false, false, false, false, false)
            && ActionsOf(complete, start) == Actions(false, true, false, false)
  {
  }

  // ---------------------------------------------------------------------------------------------
  // A jog after a probe

  const AT_REST := System(Idle, false, false, false, false, false)

  /** The call that starts a cycle, the one a probe's contact leads to, and the one at the end of a motion. */
  function Started(): Flags {
    Flags(true, false, false, false, false, true, false)
  }

  function Contact(): Flags {
    Flags(false, false, true, false, false, true, false)
  }

  function Finished(): Flags {
    Flags(false, false, false, true, false, true, false)
  }

  /**
   A motion cancel leaves step control as it is when the system returns to idle. A jog begun then is not
   prepared at all: the system falls back to idle, and the next start runs its block as a cycle, not as a jog.
   */
  lemma JogAfterProbe()
    ensures var cycle := After(AT_REST, Started());
            var cancelled := After(cycle, Contact());
            var idle := After(Next(cancelled, HoldCut), Finished());
            var jog := Next(idle, BeginJog);
            var back := After(jog, Finished());
            && cycle.run == Cycle && cancelled.hold && idle.run == Idle && Possible(idle, BeginJog)
            && jog.ended && back.run == Idle
            && After(back, Started()).run == Cycle && !After(back, Started()).ended
  {
  }

  /**
   The same without an end: if the contact comes when the whole motion has been cut already, step control is left in
   a hold that never ends, and the first segment of the jog ends that hold instead of making a step.
   */
  lemma JogAfterLateContact(target: PlannerQueue.Steps, g: PlannerQueue.Geometry, root: real -> real)
    requires Profile.SquareRoot(root) && PlannerQueue.Physical(g) && target != PlannerQueue.Steps(0, 0, 0)
    ensures var idle := After(After(After(AT_REST, Started()), Contact()), Finished());
            var e := Execution.WithMove(Execution.AT_REST.(holding := true), target, g);
            var back := After(Next(Next(idle, BeginJog), HoldCut), Finished());
            && Possible(idle, BeginJog) && idle.hold && !idle.ended
            && Execution.Good(e) && Agrees(idle, e) && Execution.Enabled(e, Execution.Load)
            && !MakesSteps(e, root)
            && back.run == Idle && back.ended && After(back, Started()).run == Cycle
  {
    var rest := Execution.AT_REST.(holding := true);
    FirstMove(rest, target, g);
    JogIsPrepared(System(Idle, false, false, false, true, false), Execution.WithMove(rest, target, g), root);
  }

  /** A first move is to be entered at rest. */
  lemma FirstMove(e: Execution.State, target: PlannerQueue.Steps, g: PlannerQueue.Geometry)
    requires Execution.Good(e) && e.queue.blocks == [] && PlannerQueue.Physical(g) && target != e.queue.position
    ensures var r := Execution.WithMove(e, target, g);
            && Execution.Good(r) && FromRest(r)
            && r.holding == e.holding && r.ended == e.ended
  {
    Execution.AppendKeeps(e, target, g);
    PlannerQueue.MaxEntryBounds(g, e.queue.previousNominal, 0.0);
  }

  /** The oldest block has not been begun and is to be entered at rest. */
  predicate FromRest(e: Execution.State) {
    !Execution.Begun(e) && 0 < |e.queue.blocks| && e.queue.blocks[0].maxEntrySqr == 0.0
  }

  /** The oldest block can be taken up, and the first segment cut off it has at least one step. */
  predicate MakesSteps(e: Execution.State, root: real -> real) {
    && Execution.Enabled(e, Execution.Load) && Execution.Loadable(e)
    && var l := Execution.Loaded(e, root);
       Execution.Enabled(l, Execution.CutSegment) && Execution.Cuttable(l) && 0 < Execution.NextSteps(l)
  }

  /**
   A jog begun from idle, with a move to be entered at rest, makes steps exactly when step control was left neither
   in a hold nor at the end of one. Outside probing and soft limits it never is.
   */
  lemma JogIsPrepared(s: System, e: Execution.State, root: real -> real)
    requires Profile.SquareRoot(root) && Possible(s, BeginJog) && Execution.Good(e) && Agrees(s, e) && FromRest(e)
    ensures MakesSteps(e, root) <==> !s.hold && !s.ended
    ensures InOrder(s) ==> MakesSteps(e, root)
  {
    hide Execution.Good, Execution.Loaded, Execution.Cuttable, Execution.NextSteps;
    if !s.ended {
      LoadedFlags(e, root);
      if s.hold {
        HeldAtRest(e, root);
      }
    }
    if InOrder(s) {
      assert !s.hold && !s.ended;
    }
  }

  lemma LoadedFlags(e: Execution.State, root: real -> real)
    requires Profile.SquareRoot(root) && Execution.Good(e) && FromRest(e) && !e.ended
    ensures Execution.Enabled(e, Execution.Load) && Execution.Loadable(e)
    ensures var l := Execution.Loaded(e, root);
            && Execution.Enabled(l, Execution.CutSegment) && Execution.Cuttable(l)
            && (!e.holding ==> 0 < Execution.NextSteps(l))
  {
    hide Execution.Good, Execution.Loaded, Execution.Cuttable, Execution.NextSteps, Execution.NextMotion;
    Execution.LoadKeeps(e, root);
    StillHolding(e, root);
    Execution.SegmentSteps(Execution.Loaded(e, root));
  }

  lemma StillHolding(e: Execution.State, root: real -> real)
    requires Execution.Loadable(e)
    ensures var l := Execution.Loaded(e, root); l.holding == e.holding && l.ended == e.ended
  {
  }

  /** In a hold such a block is profiled to stop where it starts. */
  lemma HeldAtRest(e: Execution.State, root: real -> real)
    requires Profile.SquareRoot(root) && Execution.Good(e) && FromRest(e) && e.holding && !e.ended
    ensures Execution.Loadable(e) && Execution.Cuttable(Execution.Loaded(e, root))
    ensures Execution.NextSteps(Execution.Loaded(e, root)) == 0
  {
    var l := Execution.Loaded(e, root);
    Execution.LoadKeeps(e, root);
    Execution.SegmentSteps(l);
    Execution.SegmentFacts(l);
    NoExitSpeed(e);
    StopsAtOnce(l, root);
  }

  lemma NoExitSpeed(e: Execution.State)
    requires Execution.Good(e) && FromRest(e)
    ensures e.profile.exitSpeed == 0.0
  {
    Profile.SpeedsCompare(e.profile.exitSpeed, 0.0);
  }

  /** A motion at rest that is to stop is at the end of its profile. */
  lemma StopsAtOnce(l: Execution.State, root: real -> real)
    requires Execution.Good(l) && l.queue.loaded && !l.ended && l.holding && l.queue.speed == 0.0
    ensures l.profile.mmComplete == l.queue.blocks[0].millimeters
  {
    var b := l.queue.blocks[0];
    Execution.Positive(b);
    Profile.GainMonotone(b.acceleration, 0.0, b.millimeters - l.profile.mmComplete);
  }
}
