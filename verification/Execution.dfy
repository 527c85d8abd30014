/**
 The main program's side of a motion: the planner's queue together with the preparation of segments. A run
 interleaves new moves, feed holds, the stop at the end of a hold, resumes, and the loading and cutting of
 the oldest block.
 */
module Execution {
  import opened Blocks
  import opened PlanTheory
  import opened PlannerPasses
  import opened PlannerQueue
  import opened Profile
  import opened Segment

  /**
   `holding` is set from the request of a feed hold until the machine has come to a stop; `ended` blocks
   the preparation once the hold's deceleration is cut, until the resume.
   */
  datatype State = State(
    queue: Queue,
    ramp: Ramp,
    profile: Profile,
    stepPerMm: real,
    stepsRemaining: int,
    holding: bool,
    ended: bool)

  const REQ_MM_INCREMENT_SCALAR := 1.25

  function Ceil(x: real): int {
    -((-x).Floor)
  }

  /** Whole steps in a distance, a partial step counting as one. */
  function StepsIn(stepPerMm: real, mm: real): int {
    Ceil(stepPerMm * mm)
  }

  /** Whether the oldest block has been begun, be it loaded or waiting to be taken up again. */
  predicate Begun(s: State) {
    s.queue.loaded || s.queue.recalculate
  }

  function Motion0(s: State): Motion
    requires 0 < |s.queue.blocks|
  {
    Motion(s.ramp, s.queue.blocks[0].millimeters, s.queue.speed)
  }

  /** Squared entry speed of the block after the oldest, or a stop. */
  function ExitSqr(q: Queue): real {
    if 1 < |q.blocks| then q.blocks[1].entrySqr else 0.0
  }

  // ---------------------------------------------------------------------------------------------
  // Preparation

  predicate Loadable(s: State) {
    0 < |s.queue.blocks| && 0.0 < s.queue.blocks[0].acceleration && 0.0 < s.queue.blocks[0].millimeters
  }

  /** Takes up the oldest block: its stepping data if it is new, and in any case its velocity profile. */
  function Loaded(s: State, root: real -> real): State
    requires Loadable(s)
  {
    ProfiledFor(if s.queue.recalculate then s.(queue := s.queue.(recalculate := false, loaded := true))
      else Fresh(s, root), root)
  }

  /** The stepping data of a new block. In a hold it is entered at the speed the last one was left at. */
  function Fresh(s: State, root: real -> real): State
    requires 0 < |s.queue.blocks| && 0.0 < s.queue.blocks[0].millimeters
  {
    var b := s.queue.blocks[0];
    var entrySqr := if s.holding then Sqr(s.profile.exitSpeed) else b.entrySqr;
    var speed := if s.holding then s.profile.exitSpeed else RootOf(root, b.entrySqr);
    s.(queue := s.queue.(blocks := s.queue.blocks[0 := b.(entrySqr := entrySqr)], speed := speed, loaded := true),
       stepsRemaining := b.move.events,
       stepPerMm := b.move.events as real / b.millimeters)
  }

  function TaskOf(q: Queue): Task
    requires 0 < |q.blocks|
  {
    var b := q.blocks[0];
    Task(b.millimeters, b.acceleration, b.entrySqr, ExitSqr(q), b.nominalSpeed)
  }

  function ProfiledFor(s: State, root: real -> real): State
    requires 0 < |s.queue.blocks| && 0.0 < s.queue.blocks[0].acceleration
  {
    var (ramp, profile) := if s.holding then Hold(TaskOf(s.queue), root, s.profile)
      else Normal(TaskOf(s.queue), root, s.profile);
    s.(ramp := ramp, profile := profile)
  }

  function MinimumMm(s: State): real
    requires 0 < |s.queue.blocks| && s.stepPerMm != 0.0
  {
    var mm := s.queue.blocks[0].millimeters - REQ_MM_INCREMENT_SCALAR / s.stepPerMm;
    if mm < 0.0 then 0.0 else mm
  }

  /** A segment can be cut. */
  predicate Cuttable(s: State) {
    && 0 < |s.queue.blocks|
    && 0.0 < s.stepPerMm
    && Ready(s.profile, s.queue.blocks[0].acceleration, Motion0(s), FRESH_CLOCK)
  }

  /** Where the next segment ends. */
  function NextMotion(s: State): Motion
    requires Cuttable(s)
  {
    SegmentOf(s.profile, s.queue.blocks[0].acceleration, Motion0(s), MinimumMm(s))
  }

  /** Whole steps of the next segment. */
  function NextSteps(s: State): int
    requires Cuttable(s)
  {
    s.stepsRemaining - StepsIn(s.stepPerMm, NextMotion(s).mm)
  }

  /** The oldest block has been executed up to `mm` from its end, where the speed is `speed`. */
  function Executed(q: Queue, mm: real, speed: real): Queue
    requires 0 < |q.blocks|
  {
    q.(blocks := q.blocks[0 := q.blocks[0].(millimeters := mm)], speed := speed)
  }

  /**
   Cuts a segment. In a hold that leaves less than a step there is no segment, and the data of the block
   stays as it was. At the end of the block the planner lets go of it; at the end of a hold the
   preparation stops.
   */
  function Cut(s: State): State
    requires Cuttable(s)
  {
    CutTo(s, NextMotion(s), NextSteps(s))
  }

  /** The same, for a segment of `n` steps that ends at `m`. */
  function CutTo(s: State, m: Motion, n: int): State
    requires 0 < |s.queue.blocks|
  {
    if n == 0 && s.holding then
      s.(queue := s.queue.(speed := m.speed), ramp := m.ramp, ended := true)
    else
      var c := s.(queue := Executed(s.queue, m.mm, m.speed), ramp := m.ramp, stepsRemaining := s.stepsRemaining - n);
      if m.mm != s.profile.mmComplete then c
      else if 0.0 < m.mm then c.(ended := true)
      else c.(queue := Discarded(c.queue))
  }

  // ---------------------------------------------------------------------------------------------
  // Runs

  datatype Event =
    | Append(target: Steps, geometry: Geometry)
    | Load
    | CutSegment
    | FeedHold
    | CycleStop
    | Resume

  predicate Enabled(s: State, e: Event) {
    match e
    case Append(target, g) => |s.queue.blocks| < 15 && (target != s.queue.position ==> Physical(g))
    case Load => !s.queue.loaded && !s.ended && 0 < |s.queue.blocks|
    case CutSegment => s.queue.loaded && !s.ended
    case FeedHold => !s.holding && !s.ended
    case CycleStop => true
    case Resume => !s.holding
  }

  const AT_REST := State(Queue([], 0, false, false, 0.0, 0.0, Steps(0, 0, 0)), Accelerating,
                       Profile(0.0, 0.0, 0.0, 0.0, 0.0), 0.0, 0, false, false)

  /** The oldest block is loaded and its motion is on a profile the plan allows. */
  ghost predicate OnCourse(s: State)
    requires Sound(s.queue) && s.queue.loaded
  {
    var b := s.queue.blocks[0];
    && OnProfile(s.profile, b.acceleration, Motion0(s))
    && Sqr(s.profile.exitSpeed) <= Braking(s.queue.blocks, 1)
    && (s.ramp != Decelerating ==> s.profile.maximumSpeed <= b.nominalSpeed)
    && if s.holding
       then s.ramp == Decelerating && (s.profile.exitSpeed == 0.0 || s.profile.mmComplete == 0.0)
       else s.profile.mmComplete == 0.0 && Sqr(s.profile.exitSpeed) == ExitSqr(s.queue)
  }

  /** The steps still to be cut are those in the distance left. */
  predicate StepsMatch(s: State) {
    0 < |s.queue.blocks| && 0.0 < s.stepPerMm && s.stepsRemaining == StepsIn(s.stepPerMm, s.queue.blocks[0].millimeters)
  }

  /** What holds throughout every run. */
  ghost predicate Good(s: State) {
    && Sound(s.queue)
    && (!s.holding ==> Optimal(s.queue))
    && 0.0 <= s.profile.exitSpeed
    && (forall i :: 0 <= i < |s.queue.blocks| ==> WellFormed(s.queue.blocks[i].move))
    && (s.queue.recalculate ==>
          !s.queue.loaded && 0 < |s.queue.blocks| && s.queue.blocks[0].entrySqr == Sqr(s.queue.speed))
    && (Begun(s) ==> StepsMatch(s))
    && (!Begun(s) ==> Sqr(s.profile.exitSpeed) <= Braking(s.queue.blocks, 0))
    && (s.queue.loaded && !s.ended ==> OnCourse(s))
    && (s.queue.loaded && s.ended ==> s.holding)
  }

  lemma StartIsGood()
    ensures Good(AT_REST)
  {
  }

  lemma Positive(b: Block)
    requires SoundBlock(b)
    ensures 0.0 < b.millimeters && Reach(b) == Gain(b.acceleration, b.millimeters)
  {
    GainMonotone(b.acceleration, 0.0, b.millimeters);
  }

  lemma ExecutedBlocks(q: Queue, mm: real, speed: real)
    requires Sound(q) && 0 < |q.blocks| && 0.0 < mm
    ensures SoundBlocks(Executed(q, mm, speed).blocks)
    ensures forall i :: 1 <= i <= |q.blocks| ==> Braking(Executed(q, mm, speed).blocks, i) == Braking(q.blocks, i)
  {
    var bs := Executed(q, mm, speed).blocks;
    assert SoundBlock(q.blocks[0]);
    GainMonotone(q.blocks[0].acceleration, 0.0, mm);
    forall i | 1 <= i <= |q.blocks|
      ensures Braking(bs, i) == Braking(q.blocks, i)
    {
      AdvancedBraking(q.blocks, bs, i);
    }
    forall i, j | 0 <= i && j == i + 1 && j < |bs|
      ensures Joined(bs[i], bs[j])
    {
      assert Joined(q.blocks[i], q.blocks[j]);
    }
  }

  /** Executing part of the oldest block, to a speed from which the queue can stop, keeps the limits. */
  lemma ExecutedSound(q: Queue, mm: real, speed: real)
    requires Sound(q) && q.loaded && 0.0 < mm && 0.0 <= speed <= q.blocks[0].nominalSpeed
    requires Sqr(speed) <= Braking(q.blocks, 1) + Gain(q.blocks[0].acceleration, mm)
    ensures Sound(Executed(q, mm, speed))
  {
    ExecutedBlocks(q, mm, speed);
    SpeedsCompare(speed, q.blocks[0].nominalSpeed);
    SqrNonNegative(speed);
    var e := Executed(q, mm, speed);
    assert Reach(e.blocks[0]) == Gain(q.blocks[0].acceleration, mm);
  }

  /** If moreover the planned exit can still be reached and nothing was gained, the plan stays the greatest. */
  lemma ExecutedOptimal(q: Queue, mm: real, speed: real)
    requires Sound(q) && Optimal(q) && q.loaded && Sound(Executed(q, mm, speed))
    requires Sqr(speed) + Gain(q.blocks[0].acceleration, mm) <= TailSqr(q) + Reach(q.blocks[0])
    requires ExitSqr(q) <= Sqr(speed) + Gain(q.blocks[0].acceleration, mm)
    ensures Optimal(Executed(q, mm, speed))
  {
    var e := Executed(q, mm, speed);
    ExecutedAdvances(q, mm, speed);
    forall i | 1 <= i < |e.blocks|
      ensures e.blocks[i].entrySqr == Plan(e.blocks, TailSqr(e), i)
    {
      AdvancingKeepsPlan(q.blocks, TailSqr(q), e.blocks, TailSqr(e), i);
    }
    AdvancingKeepsPinned(q.blocks, TailSqr(q), e.blocks, TailSqr(e), q.planned);
  }

  lemma ExecutedAdvances(q: Queue, mm: real, speed: real)
    requires Sound(q) && Optimal(q) && q.loaded
    requires Sqr(speed) + Gain(q.blocks[0].acceleration, mm) <= TailSqr(q) + Reach(q.blocks[0])
    requires ExitSqr(q) <= Sqr(speed) + Gain(q.blocks[0].acceleration, mm)
    ensures var e := Executed(q, mm, speed); Advanced(q.blocks, TailSqr(q), e.blocks, TailSqr(e))
  {
    var e := Executed(q, mm, speed);
    assert Reach(e.blocks[0]) == Gain(q.blocks[0].acceleration, mm);
    assert e.blocks[1..] == q.blocks[1..];
    assert TailSqr(e) == Sqr(speed);
    if 1 < |q.blocks| {
      assert ExitSqr(q) == Plan(q.blocks, TailSqr(q), 1);
    }
  }

  // ---------------------------------------------------------------------------------------------
  // Loading

  /** What the planner guarantees of the block to be profiled. */
  lemma PlanIsReachable(q: Queue)
    requires Sound(q) && Optimal(q) && 0 < |q.blocks| && q.blocks[0].entrySqr == TailSqr(q)
    ensures Reachable(TaskOf(q)) && ExitSqr(q) <= Braking(q.blocks, 1)
  {
    var b := q.blocks[0];
    assert SoundBlock(b);
    Positive(b);
    assert AllPlannable(q.blocks);
    PlanBrakes(q.blocks, TailSqr(q), 0);
    if 1 < |q.blocks| {
      assert SoundBlock(q.blocks[1]) && Joined(q.blocks[0], q.blocks[1]);
      assert q.blocks[1].entrySqr == Plan(q.blocks, TailSqr(q), 1);
    }
  }

  lemma ProfiledKeeps(s: State, root: real -> real)
    requires SquareRoot(root) && Sound(s.queue) && s.queue.loaded && !s.queue.recalculate
    requires s.queue.blocks[0].entrySqr == TailSqr(s.queue)
    requires !s.holding ==> Optimal(s.queue)
    ensures var p := ProfiledFor(s, root); 0.0 <= p.profile.exitSpeed && OnCourse(p)
  {
    var q, b, t := s.queue, s.queue.blocks[0], TaskOf(s.queue);
    assert SoundBlock(b);
    Positive(b);
    BrakingNonNegative(q.blocks, 1);
    if s.holding {
      HoldOnProfile(t, root, s.profile, q.speed);
      var p := Hold(t, root, s.profile).1;
      if t.entrySqr <= Gain(t.acceleration, t.millimeters) {
        assert Sqr(p.exitSpeed) == 0.0;
      }
    } else {
      PlanIsReachable(q);
      NormalOnProfile(t, root, s.profile, q.speed);
    }
  }

  /** A block that was let go of in execution is taken up again where it was left. */
  lemma TakenUpKeeps(s: State)
    requires Good(s) && s.queue.recalculate
    ensures var q := s.queue.(recalculate := false, loaded := true);
            && Sound(q) && TailSqr(q) == q.blocks[0].entrySqr == TailSqr(s.queue)
            && (Optimal(s.queue) ==> Optimal(q))
  {
  }

  lemma FreshKeeps(s: State, root: real -> real)
    requires SquareRoot(root) && Good(s) && !Begun(s) && 0 < |s.queue.blocks| && 0.0 < s.queue.blocks[0].millimeters
    ensures var f := Fresh(s, root);
            && Sound(f.queue) && TailSqr(f.queue) == f.queue.blocks[0].entrySqr
            && (!s.holding ==> Optimal(f.queue))
            && StepsMatch(f)
  {
    var q, f, b := s.queue, Fresh(s, root).queue, s.queue.blocks[0];
    assert SoundBlock(b) && WellFormed(b.move);
    assert f.blocks[0].millimeters == b.millimeters;
    FreshSteps(b.move.events, b.millimeters);
    SqrNonNegative(s.profile.exitSpeed);
    if s.holding {
      assert Sqr(s.profile.exitSpeed) <= b.maxEntrySqr;
      FreshInHold(q, s.profile.exitSpeed);
    } else {
      assert 0.0 <= RootOf(root, b.entrySqr) && Sqr(RootOf(root, b.entrySqr)) == b.entrySqr;
      assert f == q.(speed := RootOf(root, b.entrySqr), loaded := true);
      FreshInMotion(q, RootOf(root, b.entrySqr));
    }
  }

  lemma FreshInMotion(q: Queue, speed: real)
    requires Sound(q) && 0 < |q.blocks| && !q.loaded && 0.0 <= speed && Sqr(speed) == q.blocks[0].entrySqr
    ensures var f := q.(speed := speed, loaded := true);
            && Sound(f) && TailSqr(f) == TailSqr(q)
            && (Optimal(q) ==> Optimal(f))
  {
  }

  lemma FreshSteps(events: nat, mm: real)
    requires 0 < events && 0.0 < mm
    ensures 0.0 < events as real / mm && StepsIn(events as real / mm, mm) == events
  {
    assert events as real / mm * mm == events as real;
  }

  lemma FreshInHold(q: Queue, speed: real)
    requires Sound(q) && 0 < |q.blocks| && !q.loaded && 0.0 <= speed && Sqr(speed) <= Braking(q.blocks, 0)
    requires Sqr(speed) <= q.blocks[0].maxEntrySqr
    ensures Sound(q.(blocks := q.blocks[0 := q.blocks[0].(entrySqr := Sqr(speed))], speed := speed, loaded := true))
  {
    var b := q.blocks[0];
    var bs := q.blocks[0 := b.(entrySqr := Sqr(speed))];
    SqrNonNegative(speed);
    assert SoundBlock(b);
    forall i | 0 <= i < |bs|
      ensures 0.0 <= bs[i].entrySqr <= Sqr(bs[i].nominalSpeed)
    {
      assert SoundBlock(q.blocks[i]);
    }
    SameShapeSound(q.blocks, bs);
    ShapeBraking(q.blocks, bs, 1);
  }

  lemma LoadKeeps(s: State, root: real -> real)
    requires SquareRoot(root) && Good(s) && Enabled(s, Load)
    ensures Loadable(s) && Good(Loaded(s, root)) && Loaded(s, root).queue.loaded
  {
    var b := s.queue.blocks[0];
    assert SoundBlock(b);
    Positive(b);
    if s.queue.recalculate {
      TakenUpKeeps(s);
      ProfiledKeeps(s.(queue := s.queue.(recalculate := false, loaded := true)), root);
    } else {
      FreshKeeps(s, root);
      ProfiledKeeps(Fresh(s, root), root);
    }
  }

  // ---------------------------------------------------------------------------------------------
  // Cutting

  lemma CourseIsCuttable(s: State)
    requires Good(s) && Enabled(s, CutSegment)
    ensures Cuttable(s) && 0.0 < s.queue.blocks[0].millimeters && MinimumMm(s) < s.queue.blocks[0].millimeters
  {
    var b := s.queue.blocks[0];
    assert SoundBlock(b);
    Positive(b);
    PositiveQuotient(REQ_MM_INCREMENT_SCALAR, s.stepPerMm);
  }

  lemma PositiveQuotient(x: real, y: real)
    requires 0.0 < x && 0.0 < y
    ensures 0.0 < x / y && x / y * y == x
  {
  }

  /** What a segment leaves, in terms of the plan. */
  lemma SegmentFacts(s: State)
    requires Good(s) && Enabled(s, CutSegment)
    ensures Cuttable(s)
    ensures var b, m := s.queue.blocks[0], NextMotion(s);
            && OnProfile(s.profile, b.acceleration, m)
            && (0.0 <= m.mm < b.millimeters || (s.holding && m.mm == b.millimeters == s.profile.mmComplete))
            && m.speed <= b.nominalSpeed
            && (m.mm == s.profile.mmComplete ==> m.speed == s.profile.exitSpeed)
            && Sqr(m.speed) + Gain(b.acceleration, m.mm) <= TailSqr(s.queue) + Reach(b)
            && Sqr(m.speed) <= Braking(s.queue.blocks, 1) + Gain(b.acceleration, m.mm)
            && (!s.holding ==> ExitSqr(s.queue) <= Sqr(m.speed) + Gain(b.acceleration, m.mm))
            && (s.ramp == Decelerating ==> m.ramp == Decelerating)
  {
    var b := s.queue.blocks[0];
    CourseIsCuttable(s);
    SegmentEnds(s.profile, b.acceleration, Motion0(s), MinimumMm(s));
    CanReachExit(s.profile, b.acceleration, NextMotion(s));
    SpeedsCompare(s.queue.speed, b.nominalSpeed);
  }

  lemma StepAndAQuarter(stepPerMm: real, d: real)
    requires 0.0 < stepPerMm && REQ_MM_INCREMENT_SCALAR / stepPerMm <= d
    ensures 1.0 <= stepPerMm * d
  {
    PositiveQuotient(REQ_MM_INCREMENT_SCALAR, stepPerMm);
    Monotone(stepPerMm, REQ_MM_INCREMENT_SCALAR / stepPerMm, d);
  }

  lemma FewerSteps(stepPerMm: real, mm: real, mm': real)
    requires 0.0 < stepPerMm && 0.0 <= mm' <= mm
    ensures 0 <= StepsIn(stepPerMm, mm') <= StepsIn(stepPerMm, mm)
    ensures 0.0 < mm ==> 0 < StepsIn(stepPerMm, mm)
    ensures mm' == 0.0 ==> StepsIn(stepPerMm, mm') == 0
    ensures REQ_MM_INCREMENT_SCALAR / stepPerMm <= mm - mm' ==> StepsIn(stepPerMm, mm') < StepsIn(stepPerMm, mm)
  {
    Monotone(stepPerMm, mm', mm);
    Monotone(stepPerMm, 0.0, mm');
    Monotone(stepPerMm, 0.0, mm);
    if REQ_MM_INCREMENT_SCALAR / stepPerMm <= mm - mm' {
      StepAndAQuarter(stepPerMm, mm - mm');
      assert stepPerMm * (mm - mm') == stepPerMm * mm - stepPerMm * mm';
    }
  }

  lemma Monotone(k: real, x: real, y: real)
    requires 0.0 < k && x <= y
    ensures k * x <= k * y && (x < y ==> k * x < k * y)
    ensures k * 0.0 == 0.0
  {
    var d := y - x;
    assert 0.0 <= k * d && (0.0 < d ==> 0.0 < k * d);
    assert k * (x + d) == k * x + k * d;
  }

  /** Every segment has at least one step, except where a feed hold stops short of one. */
  lemma SegmentSteps(s: State)
    requires Good(s) && Enabled(s, CutSegment)
    ensures Cuttable(s)
    ensures 0 <= NextSteps(s) <= s.stepsRemaining
    ensures NextSteps(s) == 0 ==>
              s.holding && 0.0 < NextMotion(s).mm == s.profile.mmComplete && NextMotion(s).speed == 0.0
    ensures NextMotion(s).mm == 0.0 ==> NextSteps(s) == s.stepsRemaining
  {
    var b := s.queue.blocks[0];
    CourseIsCuttable(s);
    SegmentEnds(s.profile, b.acceleration, Motion0(s), MinimumMm(s));
    var mm, mm' := b.millimeters, NextMotion(s).mm;
    FewerSteps(s.stepPerMm, mm, mm');
    assert NextSteps(s) == StepsIn(s.stepPerMm, mm) - StepsIn(s.stepPerMm, mm');
    if mm' == 0.0 {
      assert 0 < NextSteps(s);
    } else if mm' <= MinimumMm(s) {
      assert 0 < NextSteps(s);
    } else {
      assert mm' == s.profile.mmComplete;
      assert s.holding && s.profile.exitSpeed == 0.0;
    }
  }

  lemma CutOn(s: State)
    requires Good(s) && Enabled(s, CutSegment) && Cuttable(s) && 0 < NextSteps(s) && 0.0 < NextMotion(s).mm
    ensures Good(Cut(s))
  {
    var c, m, q := Cut(s), NextMotion(s), s.queue;
    SegmentFacts(s);
    ExecutedSound(q, m.mm, m.speed);
    if !s.holding {
      ExecutedOptimal(q, m.mm, m.speed);
    }
    ExecutedBlocks(q, m.mm, m.speed);
    assert forall i :: 0 <= i < |c.queue.blocks| ==> c.queue.blocks[i].move == q.blocks[i].move;
  }

  /** The end of the block: the next one is entered at exactly the speed this one is left at. */
  lemma CutOff(s: State)
    requires Good(s) && Enabled(s, CutSegment) && Cuttable(s) && 0 < NextSteps(s) && NextMotion(s).mm == 0.0
    ensures Good(Cut(s))
  {
    var c, m, q := Cut(s), NextMotion(s), s.queue;
    SegmentFacts(s);
    DiscardedKeeps(q);
    var d := Discarded(q);
    assert c.queue == d.(speed := m.speed);
    BrakingShift(q.blocks, 1, 0);
    assert forall i :: 0 <= i < |d.blocks| ==> d.blocks[i].move == q.blocks[i + 1].move;
  }

  /** Less than a step to go in a hold: the motion is at rest and nothing is cut. */
  lemma CutNothing(s: State)
    requires Good(s) && Enabled(s, CutSegment) && Cuttable(s) && NextSteps(s) == 0
    ensures Good(Cut(s))
  {
    SegmentSteps(s);
    var c, q, b := Cut(s), s.queue, s.queue.blocks[0];
    BrakingNonNegative(q.blocks, 1);
    assert SoundBlock(b);
    assert Sqr(0.0) == 0.0;
    SqrNonNegative(b.nominalSpeed);
  }

  lemma CutKeeps(s: State)
    requires Good(s) && Enabled(s, CutSegment)
    ensures Cuttable(s) && Good(Cut(s))
  {
    SegmentSteps(s);
    SegmentFacts(s);
    if NextSteps(s) == 0 {
      CutNothing(s);
    } else if NextMotion(s).mm == 0.0 {
      CutOff(s);
    } else {
      CutOn(s);
    }
  }

  // ---------------------------------------------------------------------------------------------
  // The other events

  function WithMove(s: State, target: Steps, g: Geometry): State
    requires s.queue.loaded ==> 0 < |s.queue.blocks|
    requires 0 < |s.queue.blocks| ==> s.queue.planned < |s.queue.blocks|
  {
    s.(queue := Appended(s.queue, target, g))
  }

  /** A new move leaves the blocks before the cached index as they are, and only raises braking limits. */
  lemma AppendedShape(q: Queue, target: Steps, g: Geometry)
    requires Sound(q) && Physical(g) && target != q.position
    ensures var r, b := Appended(q, target, g), NewBlock(q, MoveBetween(q.position, target), g);
            && Sound(r)
            && SameShape(q.blocks + [b], r.blocks)
            && r.speed == q.speed
            && (!q.loaded && 0 < |q.blocks| ==> r.blocks[0] == q.blocks[0])
            && (q.loaded ==> if q.planned == 0 then !r.loaded && r.blocks[0].entrySqr == Sqr(q.speed)
                             else r.loaded && 1 < |q.blocks| && r.blocks[1] == q.blocks[1])
            && (r.loaded || r.recalculate <==> q.loaded || q.recalculate)
            && (!q.loaded ==> r.loaded == q.loaded && r.recalculate == q.recalculate)
            && (q.loaded && !q.recalculate ==> r.loaded != r.recalculate)
  {
    var p := Pushed(q, target, g);
    AppendedKeeps(q, target, g);
    PushedSound(q, target, g);
    RecalculatedShape(p);
    if q.loaded && 0 < q.planned {
      RecalculatedKept(p, 1);
    }
  }

  lemma AppendedBraking(q: Queue, target: Steps, g: Geometry, i: nat)
    requires Sound(q) && Physical(g) && target != q.position && i <= |q.blocks|
    ensures i <= |Appended(q, target, g).blocks| && Braking(q.blocks, i) <= Braking(Appended(q, target, g).blocks, i)
  {
    var r, b := Appended(q, target, g), NewBlock(q, MoveBetween(q.position, target), g);
    AppendedShape(q, target, g);
    PushedSound(q, target, g);
    assert Plannable(Pushed(q, target, g).blocks[|q.blocks|]);
    AppendingRaisesBraking(q.blocks, [b], i);
    ShapeBraking(q.blocks + [b], r.blocks, i);
  }

  lemma AppendKeeps(s: State, target: Steps, g: Geometry)
    requires Good(s) && Enabled(s, Append(target, g))
    ensures Good(WithMove(s, target, g))
  {
    var q := s.queue;
    if target != q.position {
      AppendedKeeps(q, target, g);
      AppendedShape(q, target, g);
      AppendedMoves(q, target, g);
      AppendedBraking(q, target, g, 0);
      if q.loaded {
        AppendedBraking(q, target, g, 1);
      }
    }
  }

  lemma AppendedMoves(q: Queue, target: Steps, g: Geometry)
    requires Sound(q) && Physical(g) && target != q.position
    requires forall i :: 0 <= i < |q.blocks| ==> WellFormed(q.blocks[i].move)
    ensures var r := Appended(q, target, g);
            forall i :: 0 <= i < |r.blocks| ==> WellFormed(r.blocks[i].move)
  {
    var r, b := Appended(q, target, g), NewBlock(q, MoveBetween(q.position, target), g);
    AppendedShape(q, target, g);
    forall i | 0 <= i < |r.blocks|
      ensures WellFormed(r.blocks[i].move)
    {
      assert SameButEntry((q.blocks + [b])[i], r.blocks[i]);
    }
  }

  /** A feed hold has the oldest block profiled anew, this time to a stop. */
  function Held(s: State): State
    requires s.queue.loaded ==> 0 < |s.queue.blocks|
  {
    s.(queue := Unloaded(s.queue), holding := true, ended := false)
  }

  lemma HoldKeeps(s: State)
    requires Good(s) && Enabled(s, FeedHold)
    ensures Good(Held(s))
  {
    UnloadedKeeps(s.queue);
  }

  /** The machine has come to a stop: everything is replanned from the speed reached. */
  function Stopped(s: State): State
    requires s.queue.loaded ==> 0 < |s.queue.blocks|
  {
    s.(queue := Reinitialized(s.queue), holding := false)
  }

  lemma ReinitializedShape(q: Queue)
    requires Sound(q)
    ensures var r := Reinitialized(q);
            && SameShape(q.blocks, r.blocks)
            && !r.loaded && r.recalculate == (q.recalculate || q.loaded) && r.speed == q.speed
            && (0 < |q.blocks| ==> r.blocks[0].entrySqr == TailSqr(q))
            && Braking(r.blocks, 0) == Braking(q.blocks, 0)
  {
    var u := Unloaded(q).(planned := 0);
    UnloadedKeeps(q);
    RecalculatedShape(u);
    ReinitializedOptimal(q);
    ShapeBraking(q.blocks, Reinitialized(q).blocks, 0);
  }

  lemma StopKeeps(s: State)
    requires Good(s) && Enabled(s, CycleStop)
    ensures Good(Stopped(s))
  {
    ReinitializedOptimal(s.queue);
    ReinitializedShape(s.queue);
    var r := Reinitialized(s.queue);
    forall i | 0 <= i < |r.blocks|
      ensures WellFormed(r.blocks[i].move) && r.blocks[i].millimeters == s.queue.blocks[i].millimeters
    {
      assert SameButEntry(s.queue.blocks[i], r.blocks[i]);
    }
  }

  /** The event is possible and what it does is defined. */
  predicate Can(s: State, e: Event) {
    && Enabled(s, e)
    && (s.queue.loaded ==> 0 < |s.queue.blocks|)
    && (0 < |s.queue.blocks| ==> s.queue.planned < |s.queue.blocks|)
    && (e == Load ==> Loadable(s))
    && (e == CutSegment ==> Cuttable(s))
  }

  /** What an event does. */
  function Next(s: State, e: Event, root: real -> real): State
    requires Can(s, e)
  {
    match e
    case Append(target, g) => WithMove(s, target, g)
    case Load => Loaded(s, root)
    case CutSegment => Cut(s)
    case FeedHold => Held(s)
    case CycleStop => Stopped(s)
    case Resume => s.(ended := false)
  }

  lemma NextKeeps(s: State, e: Event, root: real -> real)
    requires SquareRoot(root) && Good(s) && Enabled(s, e)
    ensures Can(s, e) && Good(Next(s, e, root))
  {
    match e
    case Append(target, g) => AppendKeeps(s, target, g);
    case Load => LoadKeeps(s, root);
    case CutSegment => CutKeeps(s);
    case FeedHold => HoldKeeps(s);
    case CycleStop => StopKeeps(s);
    case Resume =>
  }

  /** A run: the states between the events, from start-up on. */
  ghost predicate Run(states: seq<State>, events: seq<Event>, root: real -> real) {
    && |states| == |events| + 1
    && states[0] == AT_REST
    && forall i :: 0 <= i < |events| ==> Follows(states, events, root, i)
  }

  /** Event `i` of the run was possible and took state `i` to the next. */
  ghost predicate Follows(states: seq<State>, events: seq<Event>, root: real -> real, i: nat)
    requires i < |events| < |states|
  {
    && Enabled(states[i], events[i])
    && (Can(states[i], events[i]) ==> states[i + 1] == Next(states[i], events[i], root))
  }

  lemma {:induction false} RunIsGood(states: seq<State>, events: seq<Event>, root: real -> real, i: nat)
    requires SquareRoot(root) && Run(states, events, root) && i < |states|
    ensures Good(states[i])
  {
    if i == 0 {
      StartIsGood();
    } else {
      RunIsGood(states, events, root, i - 1);
      assert Follows(states, events, root, i - 1);
      NextKeeps(states[i - 1], events[i - 1], root);
    }
  }

  /** The squared entry speeds planned, the oldest block being entered at the speed reached in it. */
  function Entries(q: Queue): (e: seq<real>)
    ensures |e| == |q.blocks|
  {
    seq(|q.blocks|, i requires 0 <= i < |q.blocks| => if i == 0 then TailSqr(q) else q.blocks[i].entrySqr)
  }

  /**
   At every point of every run outside a hold, the plan is feasible and pointwise the greatest feasible
   one, the cached index is among the queued blocks, and the exit speed the segment generator works with
   is the entry speed planned for the next block.
   */
  lemma PlanIsOptimalThroughout(states: seq<State>, events: seq<Event>, root: real -> real, i: nat)
    requires SquareRoot(root) && Run(states, events, root) && i < |states| && !states[i].holding
    ensures var s, q := states[i], states[i].queue;
            && (q.blocks != [] ==>
                  && q.planned < |q.blocks|
                  && Feasible(q.blocks, TailSqr(q), Entries(q))
                  && forall e: seq<real>, j :: Feasible(q.blocks, TailSqr(q), e) && 0 <= j < |e| ==>
                       e[j] <= Entries(q)[j])
            && (q.loaded ==> 0.0 <= s.profile.exitSpeed && Sqr(s.profile.exitSpeed) == ExitSqr(q))
  {
    var q := states[i].queue;
    RunIsGood(states, events, root, i);
    if q.blocks != [] {
      PlanIsGreatest(q.blocks, TailSqr(q));
      assert Entries(q) == PlanSeq(q.blocks, TailSqr(q));
    }
  }

  /**
   Holds included: the queue can always be brought to a stop, and the highest speed the profile of the oldest block
   still holds is within the block's nominal speed.
   */
  lemma CanStopThroughout(states: seq<State>, events: seq<Event>, root: real -> real, i: nat)
    requires SquareRoot(root) && Run(states, events, root) && i < |states|
    ensures var s, q := states[i], states[i].queue;
            && (q.blocks != [] ==> CanStop(q.blocks, TailSqr(q)) && TailSqr(q) <= Sqr(q.blocks[0].nominalSpeed))
            && (q.loaded ==> q.blocks != [])
            && (q.loaded && !s.ended ==> TopSpeed(s.profile, Motion0(s)) <= q.blocks[0].nominalSpeed)
  {
    RunIsGood(states, events, root, i);
    if states[i].queue.loaded && !states[i].ended {
      WithinNominal(states[i]);
    }
  }

  lemma WithinNominal(s: State)
    requires Good(s) && s.queue.loaded && !s.ended
    ensures TopSpeed(s.profile, Motion0(s)) <= s.queue.blocks[0].nominalSpeed
  {
    SpeedsCompare(s.queue.speed, s.queue.blocks[0].nominalSpeed);
  }

  // ---------------------------------------------------------------------------------------------
  // Conservation of steps

  /** Steps cut from the block begun last, up to state `i` of the run. */
  ghost function Issued(states: seq<State>, events: seq<Event>, i: nat): int
    requires |states| == |events| + 1 && i < |states|
  {
    if i == 0 then 0
    else if events[i - 1] == Load && !states[i - 1].queue.recalculate then 0
    else Issued(states, events, i - 1) + IssuedBy(states[i - 1], events[i - 1])
  }

  function IssuedBy(s: State, e: Event): int {
    if e == CutSegment && Cuttable(s) then NextSteps(s) else 0
  }

  lemma NextConserves(s: State, e: Event, root: real -> real, issued: int)
    requires SquareRoot(root) && Good(s) && Enabled(s, e) && Can(s, e)
    requires Begun(s) ==> issued + s.stepsRemaining == s.queue.blocks[0].move.events
    ensures var s' := Next(s, e, root);
            var issued' := if e == Load && !s.queue.recalculate then 0 else issued + IssuedBy(s, e);
            && Good(s')
            && (Begun(s') ==> issued' + s'.stepsRemaining == s'.queue.blocks[0].move.events)
  {
    NextKeeps(s, e, root);
    match e {
      case Append(target, g) =>
        if target != s.queue.position {
          AppendedShape(s.queue, target, g);
        }
      case Load => LoadKeeps(s, root);
      case CutSegment => SegmentSteps(s);
      case FeedHold =>
      case CycleStop => ReinitializedShape(s.queue);
      case Resume =>
    }
  }

  lemma {:induction false} IssuedAndRemaining(states: seq<State>, events: seq<Event>, root: real -> real, i: nat)
    requires SquareRoot(root) && Run(states, events, root) && i < |states|
    ensures Good(states[i])
    ensures Begun(states[i]) ==>
              Issued(states, events, i) + states[i].stepsRemaining == states[i].queue.blocks[0].move.events
  {
    if i == 0 {
      StartIsGood();
    } else {
      IssuedAndRemaining(states, events, root, i - 1);
      assert Follows(states, events, root, i - 1);
      NextKeeps(states[i - 1], events[i - 1], root);
      NextConserves(states[i - 1], events[i - 1], root, Issued(states, events, i - 1));
    }
  }

  /**
   Across any replans, holds and resumes, the segments cut from a block hold exactly its steps when the
   planner lets go of it, and every segment pushed has at least one.
   */
  lemma BlocksAreCutExactly(states: seq<State>, events: seq<Event>, root: real -> real, i: nat)
    requires SquareRoot(root) && Run(states, events, root) && i < |events| && events[i] == CutSegment
    ensures var s, s' := states[i], states[i + 1];
            && Cuttable(s) && s' == Cut(s)
            && (|s'.queue.blocks| < |s.queue.blocks| ==> Issued(states, events, i + 1) == s.queue.blocks[0].move.events)
            && 0 <= NextSteps(s) <= s.stepsRemaining
            && (NextSteps(s) == 0 ==>
                  s.holding && s'.ended && s'.queue.blocks == s.queue.blocks && s'.queue.speed == 0.0)
  {
    IssuedAndRemaining(states, events, root, i);
    assert Follows(states, events, root, i);
    NextKeeps(states[i], events[i], root);
    SegmentSteps(states[i]);
  }
}
