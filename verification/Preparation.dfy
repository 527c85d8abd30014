/** The preparation of segments as it runs: profiles the block in execution in place and fills the segment ring. */
module Preparation {
  import opened Blocks
  import opened PlannerQueue
  import opened PlannerRing
  import opened Profile
  import opened Segment
  import opened StepperRings
  import opened Bresenham
  import RingQueue
  import SegmentRings
  import Execution

  /** The rings after a segment of `s` has been cut. */
  function AfterCut(s: Execution.State, r: SegmentRings.Rings, level: Level): SegmentRings.Rings
    requires SegmentRings.Sized(r) && Execution.Cuttable(s) && 0 <= Execution.NextSteps(s)
  {
    if Execution.NextSteps(s) == 0 && s.holding then r else SegmentRings.SegmentPushed(r, Execution.NextSteps(s), level)
  }

  /** The rings after the oldest block of `s` has been taken up. */
  function AfterLoad(s: Execution.State, r: SegmentRings.Rings): SegmentRings.Rings
    requires SegmentRings.Sized(r) && 0 < |s.queue.blocks|
  {
    if s.queue.recalculate then r else SegmentRings.BlockLoaded(r, s.queue.blocks[0].move)
  }

  /** There is room for a segment and something to cut it from. */
  predicate Fillable(s: Execution.State, r: SegmentRings.Rings) {
    !s.ended && SegmentRings.SegmentCount(r) < 5 && (s.queue.loaded || 0 < |s.queue.blocks|)
  }

  /** The oldest block is taken up if need be, and a segment is cut off it. */
  ghost function OneMore(s: Execution.State, r: SegmentRings.Rings, root: real -> real, level: Level)
      : (Execution.State, SegmentRings.Rings)
    requires SquareRoot(root) && Execution.Good(s) && SegmentRings.Sized(r) && Fillable(s, r)
  {
    CanCut(s, root);
    var s1 := if s.queue.loaded then s else Execution.Loaded(s, root);
    var r1 := if s.queue.loaded then r else AfterLoad(s, r);
    (Execution.Cut(s1), AfterCut(s1, r1, level))
  }

  lemma CanCut(s: Execution.State, root: real -> real)
    requires SquareRoot(root) && Execution.Good(s) && !s.ended && (s.queue.loaded || 0 < |s.queue.blocks|)
    ensures !s.queue.loaded ==> 0 < |s.queue.blocks| && Execution.Loadable(s)
    ensures var s1 := if s.queue.loaded then s else Execution.Loaded(s, root);
            && Execution.Good(s1) && Execution.Enabled(s1, Execution.CutSegment)
            && Execution.Cuttable(s1) && 0 <= Execution.NextSteps(s1)
            && Execution.Good(Execution.Cut(s1))
            && (Execution.NextSteps(s1) == 0 ==> s1.holding && Execution.Cut(s1).ended)
  {
    var s1 := if s.queue.loaded then s else (Execution.LoadKeeps(s, root); Execution.Loaded(s, root));
    Execution.CutKeeps(s1);
    Execution.SegmentSteps(s1);
  }

  lemma LoadFacts(s: Execution.State, root: real -> real)
    requires SquareRoot(root) && Execution.Good(s) && Execution.Enabled(s, Execution.Load)
    ensures Execution.Loadable(s) && 0.0 <= s.queue.blocks[0].entrySqr
  {
    Execution.LoadKeeps(s, root);
    assert SoundBlock(s.queue.blocks[0]);
  }

  lemma CutFacts(s: Execution.State)
    requires Execution.Good(s) && Execution.Enabled(s, Execution.CutSegment)
    ensures Execution.Cuttable(s) && 0 <= Execution.NextSteps(s) && 0.0 <= Execution.NextMotion(s).mm
  {
    Execution.SegmentSteps(s);
    Execution.SegmentFacts(s);
  }

  /** Either the ring holds one segment more, or a hold has come to rest. */
  lemma OneMoreFills(s: Execution.State, r: SegmentRings.Rings, root: real -> real, level: Level)
    requires SquareRoot(root) && Execution.Good(s) && SegmentRings.Sized(r) && Fillable(s, r)
    ensures var (s', r') := OneMore(s, r, root, level);
            && Execution.Good(s') && SegmentRings.Sized(r')
            && (SegmentRings.SegmentCount(r') == SegmentRings.SegmentCount(r) + 1
                || (SegmentRings.SegmentCount(r') == SegmentRings.SegmentCount(r) && s'.ended))
  {
    hide Execution.Good, Execution.Cuttable, Execution.NextSteps, Execution.Cut, Execution.Loaded, Execution.Loadable;
    CanCut(s, root);
  }

  /** What may still be done before the ring is full or a hold is cut to its stop. */
  function Room(s: Execution.State, r: SegmentRings.Rings): int {
    2 * (5 - SegmentRings.SegmentCount(r)) + if s.ended then 0 else 1
  }

  /**
   What filling the ring leads to: segments are cut, at smoothing levels `smoothing(i)` and so on, until the
   ring is full, nothing is left to take up, or a hold has been cut to its stop.
   */
  ghost function Filled(s: Execution.State, r: SegmentRings.Rings, root: real -> real, smoothing: nat -> Level, i: nat)
      : (Execution.State, SegmentRings.Rings)
    requires SquareRoot(root) && Execution.Good(s) && SegmentRings.Sized(r)
    decreases Room(s, r)
  {
    if !Fillable(s, r) then (s, r)
    else
      OneMoreFills(s, r, root, smoothing(i));
      var (s', r') := OneMore(s, r, root, smoothing(i));
      Filled(s', r', root, smoothing, i + 1)
  }

  /** When it is done the ring is full, or a hold has been cut to its end, or there is nothing left to cut. */
  lemma {:induction false} FilledIsFull(
      s: Execution.State, r: SegmentRings.Rings, root: real -> real, smoothing: nat -> Level, i: nat)
    requires SquareRoot(root) && Execution.Good(s) && SegmentRings.Sized(r) && SegmentRings.SegmentCount(r) <= 5
    ensures var (s', r') := Filled(s, r, root, smoothing, i);
            SegmentRings.SegmentCount(r') == 5 || s'.ended || (!s'.queue.loaded && s'.queue.blocks == [])
    decreases Room(s, r)
  {
    if Fillable(s, r) {
      OneMoreFills(s, r, root, smoothing(i));
      var (s', r') := OneMore(s, r, root, smoothing(i));
      FilledIsFull(s', r', root, smoothing, i + 1);
    }
  }

  class SegmentGenerator {
    const planner: Planner
    const stepper: Stepper
    var ramp: Ramp
    var profile: Profile
    var stepPerMm: real
    var stepsRemaining: int
    var holding: bool
    var ended: bool

    constructor (planner: Planner, stepper: Stepper)
      requires planner.Valid() && stepper.Valid()
      ensures Valid() && this.planner == planner && this.stepper == stepper
      ensures Main() == Execution.AT_REST.(queue := planner.Contents())
    {
      this.planner, this.stepper := planner, stepper;
      ramp, profile := Accelerating, Profile(0.0, 0.0, 0.0, 0.0, 0.0);
      stepPerMm, stepsRemaining, holding, ended := 0.0, 0, false, false;
    }

    predicate Valid()
      reads this, planner, planner.buffer, stepper
    {
      planner.Valid() && stepper.Valid()
    }

    /** The main program's side of the motion as a value. */
    ghost function Main(): Execution.State
      reads this, planner, planner.buffer, stepper
      requires Valid()
    {
      Execution.State(planner.Contents(), ramp, profile, stepPerMm, stepsRemaining, holding, ended)
    }

    /** Lays out the velocity profile of a normal motion. */
    method LayOutNormal(t: Task, root: real -> real)
      requires 0.0 < t.acceleration
      modifies this`ramp, this`profile
      ensures (ramp, profile) == Normal(t, root, old(profile))
    {
      ramp := Accelerating;
      profile := profile.(mmComplete := 0.0, accelerateUntil := t.millimeters, exitSpeed := RootOf(root, t.exitSqr));
      var intersect := Intersection(t);
      if intersect > 0.0 {
        if intersect < t.millimeters {
          if NominalBraking(t) < intersect {
            profile := profile.(decelerateAfter := NominalBraking(t), maximumSpeed := t.nominalSpeed);
            if t.entrySqr == Sqr(t.nominalSpeed) {
              ramp := Cruising;
            } else {
              profile := profile.(accelerateUntil := NominalReached(t));
            }
          } else {
            profile := profile.(accelerateUntil := intersect, decelerateAfter := intersect,
                                maximumSpeed := RootOf(root, PeakSqr(t)));
          }
        } else {
          ramp := Decelerating;
        }
      } else {
        profile := profile.(accelerateUntil := 0.0, maximumSpeed := profile.exitSpeed);
      }
    }

    /** Lays out the velocity profile of a feed hold. */
    method LayOutHold(t: Task, root: real -> real)
      requires 0.0 < t.acceleration
      modifies this`ramp, this`profile
      ensures (ramp, profile) == Hold(t, root, old(profile))
    {
      profile := profile.(mmComplete := 0.0);
      ramp := Decelerating;
      var decelDist := HoldStop(t);
      if decelDist < 0.0 {
        profile := profile.(exitSpeed := RootOf(root, HoldExitSqr(t)));
      } else {
        profile := profile.(mmComplete := decelDist, exitSpeed := 0.0);
      }
    }

    /** Profiles the block at the tail, which has just been taken up. */
    method LayOut(root: real -> real)
      requires Valid() && planner.loaded && planner.head != planner.tail
      requires 0.0 < planner.buffer[planner.tail].acceleration
      modifies this`ramp, this`profile
      ensures Valid() && Main() == Execution.ProfiledFor(old(Main()), root)
    {
      var block := planner.buffer[planner.tail];
      var exitSqr := planner.ExecBlockExitSpeedSqr();
      var t := Task(block.millimeters, block.acceleration, block.entrySqr, exitSqr, block.nominalSpeed);
      TailIsFirst();
      assert t == Execution.TaskOf(planner.Contents());
      if holding {
        LayOutHold(t, root);
      } else {
        LayOutNormal(t, root);
      }
    }

    lemma TailIsFirst()
      requires Valid() && planner.head != planner.tail
      ensures planner.Contents().blocks != [] && planner.Contents().blocks[0] == planner.buffer[planner.tail]
    {
    }

    /** Takes up a block where it was left. */
    method TakeUp()
      requires Valid() && planner.head != planner.tail && planner.recalculate
      requires 0.0 <= planner.buffer[planner.tail].entrySqr
      modifies planner, planner.buffer
      ensures Valid()
      ensures var s := old(Main()); Main() == s.(queue := s.queue.(recalculate := false, loaded := true))
    {
      TailIsFirst();
      var block := planner.buffer[planner.tail];
      TailReach();
      planner.WriteTail(block.entrySqr, block.millimeters, planner.currentSpeed, true);
      assert planner.Contents().blocks == old(planner.Contents().blocks);
    }

    lemma TailReach()
      requires Valid() && planner.head != planner.tail
      ensures NonNegativeTail(planner.buffer[planner.tail])
    {
    }

    predicate NonNegativeTail(b: Block) {
      0.0 <= b.entrySqr && 0.0 <= Gain(b.acceleration, b.millimeters)
    }

    /** Takes up a new block: its stepping data and the speed at which it is entered. */
    method TakeNew(root: real -> real)
      requires Valid() && planner.head != planner.tail && !planner.recalculate
               && 0.0 < planner.buffer[planner.tail].millimeters
      modifies this`stepPerMm, this`stepsRemaining, planner, planner.buffer, stepper, stepper.stBlockBuffer
      ensures Valid() && Main() == Execution.Fresh(old(Main()), root)
      ensures stepper.State() == SegmentRings.BlockLoaded(old(stepper.State()), old(planner.buffer[planner.tail].move))
    {
      TailIsFirst();
      TailReach();
      var block := planner.buffer[planner.tail];
      stepper.LoadBlock(block.move);
      stepsRemaining := block.move.events;
      stepPerMm := block.move.events as real / block.millimeters;
      SqrNonNegative(profile.exitSpeed);
      if holding {
        planner.WriteTail(Sqr(profile.exitSpeed), block.millimeters, profile.exitSpeed, true);
      } else {
        planner.WriteTail(block.entrySqr, block.millimeters, RootOf(root, block.entrySqr), true);
      }
    }

    /** Takes up the oldest block and lays out its profile. */
    method LoadBlock(root: real -> real)
      requires SquareRoot(root) && Valid() && Execution.Good(Main()) && Execution.Enabled(Main(), Execution.Load)
      modifies this`ramp, this`profile, this`stepPerMm, this`stepsRemaining
      modifies planner, planner.buffer, stepper, stepper.stBlockBuffer
      ensures Valid() && Execution.Loadable(old(Main())) && Main() == Execution.Loaded(old(Main()), root)
      ensures stepper.State() == if old(planner.recalculate) then old(stepper.State())
                                 else
                                   var move := old(planner.Contents().blocks[0].move);
                                   SegmentRings.BlockLoaded(old(stepper.State()), move)
    {
      hide Execution.Good, Execution.ProfiledFor;
      LoadFacts(Main(), root);
      TailIsFirst();
      TailReach();
      if planner.recalculate {
        TakeUp();
      } else {
        TakeNew(root);
      }
      LoadedFirst();
      LayOut(root);
    }

    /** Cuts one segment off the block at the tail, to be executed at smoothing level `level`. */
    method CutSegment(level: Level)
      requires Valid() && Execution.Good(Main()) && Execution.Enabled(Main(), Execution.CutSegment)
      modifies this`ramp, this`stepsRemaining, this`ended
      modifies planner, planner.buffer, stepper, stepper.segmentBuffer
      ensures Valid() && Execution.Cuttable(old(Main())) && 0 <= Execution.NextSteps(old(Main()))
      ensures Main() == Execution.Cut(old(Main()))
      ensures stepper.State() == AfterCut(old(Main()), old(stepper.State()), level)
    {
      hide Execution.Good, Execution.Cuttable, Execution.NextMotion, Execution.CutTo, Execution.StepsIn;
      CutFacts(Main());
      LoadedTail();
      TailAccelerates();
      var m := NextEnd();
      FinishSegment(m, stepsRemaining - Execution.StepsIn(stepPerMm, m.mm), level);
    }

    lemma LoadedTail()
      requires Valid() && planner.loaded && Execution.Good(Main())
      ensures planner.head != planner.tail
    {
      assert Sound(planner.Contents());
    }

    lemma LoadedFirst()
      requires Valid() && planner.loaded && planner.Contents().blocks != []
      ensures planner.head != planner.tail && planner.Contents().blocks[0] == planner.buffer[planner.tail]
    {
    }

    lemma TailAccelerates()
      requires Valid() && Execution.Good(Main()) && planner.head != planner.tail
      ensures 0.0 < planner.buffer[planner.tail].acceleration
    {
      TailIsFirst();
      assert SoundBlock(planner.Contents().blocks[0]);
    }

    /** Pushes the segment of `n` steps that ends at `m`, unless a hold has come to rest short of a step. */
    method FinishSegment(m: Motion, n: nat, level: Level)
      requires Valid() && planner.loaded && planner.head != planner.tail
      requires 0.0 <= m.mm && 0.0 < planner.buffer[planner.tail].acceleration
      modifies this`ramp, this`stepsRemaining, this`ended
      modifies planner, planner.buffer, stepper, stepper.segmentBuffer
      ensures Valid() && Main() == Execution.CutTo(old(Main()), m, n)
      ensures stepper.State() == if n == 0 && holding then old(stepper.State())
              else SegmentRings.SegmentPushed(old(stepper.State()), n, level)
    {
      ramp := m.ramp;
      if n == 0 && holding {
        planner.currentSpeed := m.speed;
        ended := true;
      } else {
        stepper.PushSegment(n, level);
        stepsRemaining := stepsRemaining - n;
        Advance(m);
      }
    }

    /** Follows the profile to the end of the next segment. */
    method NextEnd() returns (m: Motion)
      requires Valid() && planner.head != planner.tail && Execution.Cuttable(Main())
      ensures m == Execution.NextMotion(Main())
    {
      TailIsFirst();
      var block := planner.buffer[planner.tail];
      var minimumMm := block.millimeters - Execution.REQ_MM_INCREMENT_SCALAR / stepPerMm;
      if minimumMm < 0.0 {
        minimumMm := 0.0;
      }
      m := FollowProfile(profile, block.acceleration, Motion(ramp, block.millimeters, planner.currentSpeed), minimumMm);
    }

    /** Writes the distance left and the speed reached, and checks for the end of the profile. */
    method Advance(m: Motion)
      requires Valid() && planner.loaded && planner.head != planner.tail
      requires 0.0 <= m.mm && 0.0 < planner.buffer[planner.tail].acceleration
      modifies this`ended, planner, planner.buffer
      ensures Valid()
      ensures var s := old(Main());
              var c := s.(queue := Execution.Executed(s.queue, m.mm, m.speed));
              Main() == if m.mm != profile.mmComplete then c
                        else if 0.0 < m.mm then c.(ended := true)
                        else c.(queue := Discarded(c.queue))
    {
      TailIsFirst();
      TailReach();
      GainMonotone(planner.buffer[planner.tail].acceleration, 0.0, m.mm);
      planner.WriteTail(planner.buffer[planner.tail].entrySqr, m.mm, m.speed, false);
      if m.mm == profile.mmComplete {
        if 0.0 < m.mm {
          ended := true;
        } else {
          planner.DiscardCurrentBlock();
        }
      }
    }

    /** Cuts one more segment, taking up the oldest block first if none is loaded. */
    method PrepSegment(root: real -> real, level: Level)
      requires SquareRoot(root) && Valid() && Execution.Good(Main()) && Fillable(Main(), stepper.State())
      modifies this`ramp, this`profile, this`stepPerMm, this`stepsRemaining, this`ended
      modifies planner, planner.buffer, stepper, stepper.segmentBuffer, stepper.stBlockBuffer
      ensures Valid() && (Main(), stepper.State()) == OneMore(old(Main()), old(stepper.State()), root, level)
    {
      hide Execution.Good, Execution.Cuttable, Execution.NextSteps, Execution.Cut, Execution.Loaded, Execution.Loadable;
      CanCut(Main(), root);
      if !planner.loaded {
        LoadBlock(root);
      }
      CutSegment(level);
    }

    /**
     Fills the segment ring. The interrupt may empty it meanwhile; here it does so between two calls.
     */
    method PrepBuffer(root: real -> real, smoothing: nat -> Level)
      requires SquareRoot(root) && Valid() && Execution.Good(Main())
      modifies this`ramp, this`profile, this`stepPerMm, this`stepsRemaining, this`ended
      modifies planner, planner.buffer, stepper, stepper.segmentBuffer, stepper.stBlockBuffer
      ensures Valid() && (Main(), stepper.State()) == Filled(old(Main()), old(stepper.State()), root, smoothing, 0)
    {
      if ended {
        return;
      }
      var i := 0;
      ghost var goal := Filled(Main(), stepper.State(), root, smoothing, 0);
      while stepper.segmentTail != stepper.segmentNextHead
        invariant Valid() && Execution.Good(Main()) && !ended
        invariant Filled(Main(), stepper.State(), root, smoothing, i) == goal
        decreases Room(Main(), stepper.State())
      {
        if !planner.loaded && planner.head == planner.tail {
          return;
        }
        ghost var s, r := Main(), stepper.State();
        OneMoreFills(s, r, root, smoothing(i));
        PrepSegment(root, smoothing(i));
        i := i + 1;
        if ended {
          return;
        }
      }
    }

    /** A feed hold is requested: the block in execution is let go of, to be profiled anew. */
    method FeedHold()
      requires Valid()
      modifies this`holding, this`ended, planner`loaded, planner`recalculate, planner.buffer
      ensures Valid() && Main() == Execution.Held(old(Main()))
    {
      hide RingQueue.QueueOf, RingQueue.Consistent;
      ghost var s := planner.State();
      RingQueue.ReleasedQueue(s);
      planner.UpdateBlockParameters();
      assert planner.State() == RingQueue.Released(s);
      holding, ended := true, false;
    }

    /** The machine has come to a stop in a hold: everything is replanned from there. */
    method CycleStop()
      requires Valid()
      modifies this`holding, planner`planned, planner`loaded, planner`recalculate, planner.buffer
      ensures Valid() && Main() == Execution.Stopped(old(Main()))
    {
      hide Reinitialized, RingQueue.QueueOf, RingQueue.Consistent;
      planner.CycleReinitialize();
      holding := false;
    }
  }
}