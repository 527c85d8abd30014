/** Where one block ends and the next is begun: when the speed goes on unchanged from one to the other. */
module Joints {
  import opened Blocks
  import opened PlanTheory
  import opened PlannerPasses
  import opened PlannerQueue
  import opened Profile
  import opened Execution
  import S = Segment

  /** The oldest block has not been begun, and no hold is under way. */
  predicate Awaiting(s: State) {
    !Begun(s) && !s.holding && s.queue.blocks != []
  }

  /** A stop is reported in a hold, between two blocks, before the next was taken up at the speed of the last. */
  predicate TornAt(s: State, e: Event) {
    e == CycleStop && s.holding && !Begun(s) && s.queue.blocks != [] && s.queue.blocks[0].entrySqr != Sqr(s.queue.speed)
  }

  /** That was so the last time a stop ended a hold, and the block has not been begun or held since. */
  ghost function Torn(states: seq<State>, events: seq<Event>, i: nat): bool
    requires i <= |events| < |states|
  {
    if i == 0 then false
    else TornAt(states[i - 1], events[i - 1]) || (Torn(states, events, i - 1) && Awaiting(states[i - 1]))
  }

  /** A block is left at the exit speed, and the next waits to be entered at just that speed unless it was torn off. */
  ghost predicate Joint(s: State, torn: bool) {
    && (!Begun(s) ==> s.queue.speed == s.profile.exitSpeed)
    && (Awaiting(s) ==> (s.queue.blocks[0].entrySqr == Sqr(s.queue.speed) <==> !torn))
  }

  ghost function NextTorn(s: State, e: Event, torn: bool): bool {
    TornAt(s, e) || (torn && Awaiting(s))
  }

  /** With nothing queued the motion is at rest. */
  lemma EmptyIsAtRest(s: State)
    requires Good(s) && s.queue.blocks == [] && s.queue.speed == s.profile.exitSpeed && !Begun(s)
    ensures Sqr(s.queue.speed) == 0.0
  {
    SqrNonNegative(s.queue.speed);
  }

  lemma AppendJoins(s: State, target: Steps, g: Geometry, torn: bool)
    requires Good(s) && Enabled(s, Append(target, g)) && Joint(s, torn)
    ensures Joint(WithMove(s, target, g), NextTorn(s, Append(target, g), torn))
  {
    var q := s.queue;
    if target != q.position {
      AppendedShape(q, target, g);
      if q.blocks == [] {
        FirstIsAtRest(q, target, g);
        if !Begun(s) {
          EmptyIsAtRest(s);
        }
      }
      hide Good, Appended, Sound, Sqr, MoveBetween;
    }
  }

  lemma FirstIsAtRest(q: Queue, target: Steps, g: Geometry)
    requires Sound(q) && Physical(g) && target != q.position && q.blocks == []
    ensures Appended(q, target, g).blocks != [] && Appended(q, target, g).blocks[0].entrySqr == 0.0
  {
  }

  lemma CutJoins(s: State, torn: bool)
    requires Good(s) && Enabled(s, CutSegment)
    ensures Cuttable(s) && Joint(Cut(s), NextTorn(s, CutSegment, torn))
  {
    SegmentFacts(s);
    SegmentSteps(s);
    hide NextMotion, NextSteps, Cuttable, Optimal, SoundBlocks;
  }

  lemma StopJoins(s: State, torn: bool)
    requires Good(s) && Joint(s, torn)
    ensures Joint(Stopped(s), NextTorn(s, CycleStop, torn))
  {
    ReinitializedShape(s.queue);
    hide Good, Reinitialized, Sqr;
  }

  lemma NextJoins(s: State, e: Event, root: real -> real, torn: bool)
    requires SquareRoot(root) && Good(s) && Enabled(s, e) && Joint(s, torn)
    ensures Can(s, e) && Joint(Next(s, e, root), NextTorn(s, e, torn))
  {
    NextKeeps(s, e, root);
    match e
    case Append(target, g) => AppendJoins(s, target, g, torn);
    case Load => LoadKeeps(s, root);
    case CutSegment => CutJoins(s, torn);
    case FeedHold =>
    case CycleStop => StopJoins(s, torn);
    case Resume =>
  }

  lemma {:induction false} RunIsJoined(states: seq<State>, events: seq<Event>, root: real -> real, i: nat)
    requires SquareRoot(root) && Run(states, events, root) && i < |states|
    ensures Good(states[i]) && Joint(states[i], Torn(states, events, i))
  {
    hide Good, Can, Enabled, Next, Joint, TornAt, Awaiting;
    RunIsGood(states, events, root, i);
    if i == 0 {
      StartIsJoined();
    } else {
      RunIsJoined(states, events, root, i - 1);
      assert Follows(states, events, root, i - 1);
      NextJoins(states[i - 1], events[i - 1], root, Torn(states, events, i - 1));
    }
  }

  lemma StartIsJoined()
    ensures Joint(AT_REST, false)
  {
  }

  /**
   In every run a block is begun at exactly the speed the last one was left at, in a hold as well, unless and only if
   a stop was reported in a hold between the two, before the next was taken up, and it waited at another speed.
   */
  lemma BlocksJoin(states: seq<State>, events: seq<Event>, root: real -> real, i: nat)
    requires SquareRoot(root) && Run(states, events, root) && i < |events| && events[i] == Load && !Begun(states[i])
    ensures states[i + 1].queue.speed == states[i].queue.speed <==> states[i].holding || !Torn(states, events, i)
  {
    RunIsJoined(states, events, root, i);
    assert Follows(states, events, root, i);
    NextKeeps(states[i], Load, root);
    BegunAt(states[i], root);
    hide Good, Next, Can, Run, Follows, TornAt;
    if !states[i].holding {
      SpeedsCompare(states[i + 1].queue.speed, states[i].queue.speed);
    }
  }

  lemma BegunAt(s: State, root: real -> real)
    requires SquareRoot(root) && Good(s) && Enabled(s, Load) && !Begun(s) && Can(s, Load)
    ensures var v := Next(s, Load, root).queue.speed;
            && s.queue.blocks != [] && 0.0 <= s.queue.speed
            && if s.holding then v == s.profile.exitSpeed else 0.0 <= v && Sqr(v) == s.queue.blocks[0].entrySqr
  {
    hide Optimal, OnCourse, Normal, Hold;
  }

  // ---------------------------------------------------------------------------------------------
  // Holds

  /** When a hold is under way, and when the preparation is blocked at its end. */
  ghost predicate Phases(s: State, e: Event, n: State) {
    && (n.holding <==> e == FeedHold || (s.holding && e != CycleStop))
    && (e == Resume || e == FeedHold ==> !n.ended)
    && (s.ended && e != Resume && e != FeedHold ==> n.ended)
    && (n.ended && !s.ended ==> e == CutSegment && s.holding && n.queue.speed == 0.0)
  }

  lemma CutPhases(s: State)
    requires Good(s) && Enabled(s, CutSegment)
    ensures Cuttable(s) && Phases(s, CutSegment, Cut(s))
    ensures s.holding ==> Cut(s).queue.speed <= s.queue.speed
  {
    SegmentFacts(s);
    SegmentSteps(s);
    if s.holding {
      EndsNoFaster(s);
    }
    hide NextMotion, NextSteps, Cuttable, Optimal, SoundBlocks;
  }

  lemma EndsNoFaster(s: State)
    requires Good(s) && Enabled(s, CutSegment) && Cuttable(s) && s.holding
    ensures NextMotion(s).speed <= s.queue.speed
  {
    CourseIsCuttable(s);
    S.SegmentEnds(s.profile, s.queue.blocks[0].acceleration, Motion0(s), MinimumMm(s));
  }

  lemma EventPhases(s: State, e: Event, root: real -> real, torn: bool)
    requires SquareRoot(root) && Good(s) && Enabled(s, e) && Joint(s, torn)
    ensures Can(s, e) && Phases(s, e, Next(s, e, root))
    ensures s.holding && e != CycleStop ==> Next(s, e, root).queue.speed <= s.queue.speed
    ensures e == FeedHold ==> Next(s, e, root).queue.speed == s.queue.speed
  {
    NextKeeps(s, e, root);
    match e
    case Append(target, g) =>
      if target != s.queue.position {
        AppendedShape(s.queue, target, g);
      }
    case Load =>
      if !Begun(s) {
        BegunAt(s, root);
      }
    case CutSegment => CutPhases(s);
    case FeedHold =>
    case CycleStop => ReinitializedShape(s.queue);
    case Resume =>
  }

  /**
   In every run a hold is under way exactly from its request to the stop; only a cut that comes to rest in a hold blocks
   the preparation, and it stays blocked exactly until the resume or another hold.
   */
  lemma HoldingExactly(states: seq<State>, events: seq<Event>, root: real -> real, i: nat)
    requires SquareRoot(root) && Run(states, events, root) && i < |events|
    ensures Phases(states[i], events[i], states[i + 1])
  {
    hide Phases, Joint, Good;
    RunIsJoined(states, events, root, i);
    assert Follows(states, events, root, i);
    EventPhases(states[i], events[i], root, Torn(states, events, i));
  }

  /** From its request on a hold only brakes: no segment, no load and no move raises the speed before the stop. */
  lemma {:induction false} HoldOnlyBrakes(states: seq<State>, events: seq<Event>, root: real -> real, i: nat, j: nat)
    requires SquareRoot(root) && Run(states, events, root) && i < j < |states| && events[i] == FeedHold
    requires forall k :: i < k < j ==> events[k] != CycleStop
    ensures states[j].holding && states[j].queue.speed <= states[i].queue.speed
    ensures states[j].queue.loaded && !states[j].ended ==> states[j].ramp == Decelerating
  {
    RunIsJoined(states, events, root, j - 1);
    RunIsJoined(states, events, root, j);
    assert Follows(states, events, root, j - 1);
    BrakesInHold(states[j]);
    hide Joint, Good, Run, Follows, Next, Can, Enabled;
    if i + 1 < j {
      HoldOnlyBrakes(states, events, root, i, j - 1);
    }
    EventPhases(states[j - 1], events[j - 1], root, Torn(states, events, j - 1));
  }

  lemma BrakesInHold(s: State)
    requires Good(s)
    ensures s.holding && s.queue.loaded && !s.ended ==> s.ramp == Decelerating
  {
  }
}
