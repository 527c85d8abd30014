/**
 Moves appended while a feed hold is braking. The motion is then slower than the plan thought it would be, and a
 replan from the cached index does not see that. What is planned, and when it can still be followed, is told here.
 */
module Holds {
  import opened Blocks
  import opened PlanTheory
  import opened PlannerPasses
  import opened PlannerQueue
  import opened Profile
  import opened Segment
  import opened Execution

  /**
   The speeds queued are those planned for an entry at `t`, which the motion may have fallen below. Outside a hold
   `t` is the speed the oldest block is entered at.
   */
  ghost predicate PlannedFrom(q: Queue, t: real) {
    0 < |q.blocks| ==>
      && q.planned < |q.blocks|
      && TailSqr(q) <= t
      && (forall i :: 1 <= i < |q.blocks| ==> q.blocks[i].entrySqr == Plan(q.blocks, t, i))
      && Pinned(q.blocks, t, q.planned)
  }

  /** The second block can be reached at the speed planned for it. */
  predicate NextReachable(q: Queue) {
    1 < |q.blocks| ==> q.blocks[1].entrySqr <= TailSqr(q) + Reach(q.blocks[0])
  }

  /** The plan is the greatest one there is for the speed the motion has. */
  ghost predicate Greatest(q: Queue) {
    forall i :: 1 <= i < |q.blocks| ==> q.blocks[i].entrySqr == Plan(q.blocks, TailSqr(q), i)
  }

  lemma OptimalIsPlanned(q: Queue)
    requires Sound(q) && Optimal(q) && 0 < |q.blocks|
    ensures PlannedFrom(q, TailSqr(q))
  {
  }

  // ---------------------------------------------------------------------------------------------
  // A slower entry

  /** Where the second block is reached in any case, the plans for two entries are the same. */
  lemma SlowerEntry(bs: seq<Block>, t: real, slow: real, i: nat)
    requires 1 <= i < |bs| && slow <= t && Plan(bs, t, 1) <= slow + Reach(bs[0])
    ensures Plan(bs, slow, i) == Plan(bs, t, i)
  {
    assert Advanced(bs, t, bs, slow);
    AdvancingKeepsPlan(bs, t, bs, slow, i);
  }

  /** Speeds planned for a faster entry are the greatest, and can be followed at all, exactly if that is so. */
  lemma FollowedExactly(q: Queue, t: real)
    requires Sound(q) && PlannedFrom(q, t) && 0 < |q.blocks|
    ensures Greatest(q) <==> NextReachable(q)
    ensures Feasible(q.blocks, TailSqr(q), Entries(q)) <==> NextReachable(q)
  {
    var bs, slow := q.blocks, TailSqr(q);
    if NextReachable(q) {
      forall i | 1 <= i < |bs|
        ensures bs[i].entrySqr == Plan(bs, slow, i)
      {
        SlowerEntry(bs, t, slow, i);
      }
      assert Entries(q) == PlanSeq(bs, slow);
      PlanIsFeasible(bs, slow);
    } else {
      assert Plan(bs, slow, 1) <= slow + Reach(bs[0]);
    }
  }

  // ---------------------------------------------------------------------------------------------
  // Appending

  lemma PushedPlan(q: Queue, target: Steps, g: Geometry, t: real)
    requires Sound(q) && Physical(g) && PlannedFrom(q, t) && 0 < |q.blocks|
    ensures var p := Pushed(q, target, g);
            && Sound(p) && TailSqr(p) == TailSqr(q) && p.planned == q.planned && |p.blocks| == |q.blocks| + 1
            && (forall i :: 1 <= i < |q.blocks| ==> q.blocks[i].entrySqr <= Plan(p.blocks, t, i))
            && (forall i :: 1 <= i <= q.planned ==> p.blocks[i].entrySqr == Plan(p.blocks, t, i))
            && Pinned(p.blocks, t, p.planned)
  {
    var b := Pushed(q, target, g).blocks[|q.blocks|];
    PushedSound(q, target, g);
    assert AllPlannable([b]) by {
      assert SoundBlock(Pushed(q, target, g).blocks[|q.blocks|]);
    }
    PinnedIsFinal(q.blocks, t, q.planned, [b]);
    forall i | 1 <= i < |q.blocks|
      ensures q.blocks[i].entrySqr <= Plan(q.blocks + [b], t, i)
    {
      AppendingRaisesPlan(q.blocks, [b], t, i);
    }
  }

  /** What a replan after a move goes by: the speed of the motion only if it starts at the oldest block. */
  function EntryFor(q: Queue, t: real): real
    requires 0 < |q.blocks|
  {
    if q.planned == 0 then TailSqr(q) else t
  }

  lemma AppendedPlan(q: Queue, target: Steps, g: Geometry, t: real)
    requires Sound(q) && Physical(g) && target != q.position && PlannedFrom(q, t) && 0 < |q.blocks|
    ensures var r := Appended(q, target, g);
            && Sound(r) && |r.blocks| == |q.blocks| + 1 && TailSqr(r) == TailSqr(q)
            && Reach(r.blocks[0]) == Reach(q.blocks[0])
            && PlannedFrom(r, EntryFor(q, t))
            && (forall i :: 1 <= i < |q.blocks| ==>
                  r.blocks[i].entrySqr == Plan(Pushed(q, target, g).blocks, EntryFor(q, t), i))
  {
    var p := Pushed(q, target, g);
    PushedPlan(q, target, g, t);
    RecalculatedShape(p);
    RecalculatedSound(p);
    assert EntriesUpTo(p, EntryFor(q, t));
    assert Pinned(p.blocks, EntryFor(q, t), p.planned);
    RecalculatedPlan(p, EntryFor(q, t));
    forall i | 1 <= i < |q.blocks|
      ensures Recalculated(p).blocks[i].entrySqr == Plan(p.blocks, EntryFor(q, t), i)
    {
      RecalculatedEntry(p, EntryFor(q, t), i);
    }
    assert SameButEntry(p.blocks[0], Recalculated(p).blocks[0]);
  }

  /**
   A move appended leaves the greatest plan for the motion there is, and one it can follow at all, exactly when the
   replan starts at the oldest block or the second block could be reached at the speed planned for it before.
   */
  lemma AppendedExactly(q: Queue, target: Steps, g: Geometry, t: real)
    requires Sound(q) && Physical(g) && target != q.position && PlannedFrom(q, t) && 0 < |q.blocks|
    ensures var r := Appended(q, target, g);
            && Sound(r) && 0 < |r.blocks|
            && (Greatest(r) <==> q.planned == 0 || NextReachable(q))
            && (Feasible(r.blocks, TailSqr(r), Entries(r)) <==> q.planned == 0 || NextReachable(q))
  {
    var r := Appended(q, target, g);
    AppendedPlan(q, target, g, t);
    FollowedExactly(r, EntryFor(q, t));
    if q.planned == 0 {
      assert Plan(r.blocks, TailSqr(r), 1) <= TailSqr(r) + Reach(r.blocks[0]);
    } else {
      PushedPlan(q, target, g, t);
      assert r.blocks[1].entrySqr == q.blocks[1].entrySqr;
    }
  }

  /** It lowers no speed exactly when the replan does not start at the oldest block or the second one is in reach. */
  lemma AppendedLowers(q: Queue, target: Steps, g: Geometry, t: real)
    requires Sound(q) && Physical(g) && target != q.position && PlannedFrom(q, t) && 0 < |q.blocks|
    ensures var r := Appended(q, target, g);
            && |r.blocks| == |q.blocks| + 1
            && ((forall i :: 1 <= i < |q.blocks| ==> q.blocks[i].entrySqr <= r.blocks[i].entrySqr)
                <==> 0 < q.planned || NextReachable(q))
  {
    var r, p := Appended(q, target, g), Pushed(q, target, g);
    AppendedPlan(q, target, g, t);
    PushedPlan(q, target, g, t);
    if q.planned == 0 {
      PushedPlan(q, target, g, t);
      if NextReachable(q) {
        FollowedExactly(q, t);
        assert PlannedFrom(q, TailSqr(q));
        PushedPlan(q, target, g, TailSqr(q));
      } else {
        assert r.blocks[1].entrySqr <= TailSqr(q) + Reach(q.blocks[0]);
      }
    }
  }

  /**
   What a move appended to `q` leaves in `r`: the greatest plan, and one the motion can follow at all, exactly when
   the cached index was at the oldest block or the second block was in reach; and it lowers no speed exactly when
   the index was past the oldest block or that was so.
   */
  ghost predicate AppendedInTime(q: Queue, r: Queue) {
    && |r.blocks| == |q.blocks| + 1
    && (Greatest(r) <==> q.planned == 0 || NextReachable(q))
    && (Feasible(r.blocks, TailSqr(r), Entries(r)) <==> q.planned == 0 || NextReachable(q))
    && ((forall j :: 1 <= j < |q.blocks| ==> q.blocks[j].entrySqr <= r.blocks[j].entrySqr)
        <==> 0 < q.planned || NextReachable(q))
  }

  lemma AppendedEither(q: Queue, target: Steps, g: Geometry, t: real)
    requires Sound(q) && Physical(g) && target != q.position && PlannedFrom(q, t) && q.blocks != []
    ensures AppendedInTime(q, Appended(q, target, g))
  {
    AppendedExactly(q, target, g, t);
    AppendedLowers(q, target, g, t);
  }

  // ---------------------------------------------------------------------------------------------
  // Runs

  /** What every run keeps besides: the plan was made for `t`, and a block begun in a hold is entered no faster. */
  ghost predicate Ahead(s: State, t: real) {
    && PlannedFrom(s.queue, t)
    && (!Begun(s) && 0 < |s.queue.blocks| ==> Sqr(s.profile.exitSpeed) <= s.queue.blocks[0].entrySqr)
    && (s.ended ==> s.queue.speed == 0.0)
  }

  /** The same plan after the oldest block's own entry speed has been set. */
  lemma SamePlan(q: Queue, r: Queue, t: real)
    requires PlannedFrom(q, t) && SameShape(q.blocks, r.blocks) && r.planned == q.planned
    requires 0 < |q.blocks| ==> TailSqr(r) <= t
    requires forall i :: 1 <= i < |q.blocks| ==> r.blocks[i].entrySqr == q.blocks[i].entrySqr
    ensures PlannedFrom(r, t)
  {
    if 0 < |q.blocks| {
      ShapePinned(q.blocks, r.blocks, t, q.planned);
      forall i | 1 <= i < |q.blocks|
        ensures r.blocks[i].entrySqr == Plan(r.blocks, t, i)
      {
        ShapePlan(q.blocks, r.blocks, t, i);
      }
    }
  }

  lemma AppendAhead(s: State, target: Steps, g: Geometry, t: real) returns (t': real)
    requires Good(s) && Enabled(s, Append(target, g)) && Ahead(s, t)
    ensures Ahead(WithMove(s, target, g), t')
  {
    var q := s.queue;
    t' := t;
    if target != q.position {
      AppendedShape(q, target, g);
      AppendedKeeps(q, target, g);
      if q.blocks == [] {
        OptimalIsPlanned(Appended(q, target, g));
        t' := TailSqr(Appended(q, target, g));
        assert SoundBlock(Appended(q, target, g).blocks[0]);
      } else {
        AppendedPlan(q, target, g, t);
        t' := EntryFor(q, t);
      }
    }
  }

  lemma LoadAhead(s: State, root: real -> real, t: real)
    requires SquareRoot(root) && Good(s) && Enabled(s, Load) && Loadable(s) && Ahead(s, t)
    ensures Ahead(Loaded(s, root), t)
  {
    var r := Loaded(s, root).queue;
    if s.queue.recalculate {
      TakenUpKeeps(s);
    } else {
      FreshKeeps(s, root);
    }
    SamePlan(s.queue, r, t);
  }

  /** Part of the oldest block has been executed; it is as if it were entered where the plan would be by now. */
  lemma CutOnAhead(s: State, t: real) returns (t': real)
    requires Good(s) && Enabled(s, CutSegment) && Cuttable(s) && 0 < NextSteps(s) && 0.0 < NextMotion(s).mm
    requires PlannedFrom(s.queue, t)
    ensures PlannedFrom(Cut(s).queue, t')
  {
    var q, m := s.queue, NextMotion(s);
    var e := Executed(q, m.mm, m.speed);
    SegmentFacts(s);
    t' := t + Reach(q.blocks[0]) - Reach(e.blocks[0]);
    assert Cut(s).queue == e;
    assert e.blocks[1..] == q.blocks[1..];
    assert Advanced(q.blocks, t, e.blocks, t');
    forall i | 1 <= i < |e.blocks|
      ensures e.blocks[i].entrySqr == Plan(e.blocks, t', i)
    {
      AdvancingKeepsPlan(q.blocks, t, e.blocks, t', i);
    }
    AdvancingKeepsPinned(q.blocks, t, e.blocks, t', q.planned);
  }

  lemma DiscardedPlan(q: Queue, t: real)
    requires PlannedFrom(q, t) && 1 < |q.blocks|
    ensures PlannedFrom(Discarded(q), q.blocks[1].entrySqr)
  {
    ShiftedPlan(q.blocks, t, q.planned);
  }

  lemma ShiftedPlan(bs: seq<Block>, t: real, planned: nat)
    requires planned < |bs| && 1 < |bs| && Pinned(bs, t, planned)
    requires forall i :: 1 <= i < |bs| ==> bs[i].entrySqr == Plan(bs, t, i)
    ensures forall i :: 1 <= i < |bs[1..]| ==> bs[1..][i].entrySqr == Plan(bs[1..], bs[1].entrySqr, i)
    ensures Pinned(bs[1..], bs[1].entrySqr, if planned == 0 then 0 else planned - 1)
  {
    hide Plan, Pinned;
    assert bs[1].entrySqr == Plan(bs, t, 1);
    forall i | 1 <= i < |bs[1..]|
      ensures bs[1..][i].entrySqr == Plan(bs[1..], bs[1].entrySqr, i)
    {
      PlanShift(bs, t, 1, i);
      assert bs[i + 1].entrySqr == Plan(bs, t, i + 1);
    }
    if planned == 0 {
      FirstPinned(bs[1..], bs[1].entrySqr);
    } else {
      PinnedShift(bs, t, 1, planned - 1);
    }
  }

  lemma FirstPinned(bs: seq<Block>, t: real)
    requires 0 < |bs|
    ensures Pinned(bs, t, 0)
  {
  }

  lemma LeftSlower(p: Profile, a: real, mm: real, speed: real)
    requires OnProfile(p, a, Motion(Decelerating, mm, speed)) && p.mmComplete == 0.0 && 0.0 < a && 0.0 < mm
    ensures Sqr(p.exitSpeed) <= Sqr(speed)
  {
    GainMonotone(a, 0.0, mm);
    assert mm - 0.0 == mm;
  }

  /** In a hold as outside of one, a block is left no faster than the next one is planned to be entered. */
  lemma LeftNoFaster(s: State, t: real)
    requires Good(s) && Enabled(s, CutSegment) && Cuttable(s) && NextMotion(s).mm == 0.0 && 1 < |s.queue.blocks|
    requires PlannedFrom(s.queue, t)
    ensures Sqr(s.profile.exitSpeed) <= s.queue.blocks[1].entrySqr
  {
    CompletesAtEnd(s);
    if s.holding {
      var b := s.queue.blocks[0];
      CourseInHold(s);
      LeftSlower(s.profile, b.acceleration, b.millimeters, s.queue.speed);
      WithinPlan(s.queue, t, Sqr(s.profile.exitSpeed));
    }
  }

  lemma CompletesAtEnd(s: State)
    requires Good(s) && Enabled(s, CutSegment) && Cuttable(s) && NextMotion(s).mm == 0.0
    ensures s.profile.mmComplete == 0.0 && (!s.holding ==> Sqr(s.profile.exitSpeed) == ExitSqr(s.queue))
  {
    SegmentFacts(s);
  }

  lemma CourseInHold(s: State)
    requires Good(s) && s.queue.loaded && !s.ended && s.holding
    ensures var b := s.queue.blocks[0];
            && OnProfile(s.profile, b.acceleration, Motion(Decelerating, b.millimeters, s.queue.speed))
            && Sqr(s.profile.exitSpeed) <= Braking(s.queue.blocks, 1)
            && 0.0 < b.acceleration && 0.0 < b.millimeters && TailSqr(s.queue) == Sqr(s.queue.speed)
  {
    var b := s.queue.blocks[0];
    assert SoundBlock(b);
    Positive(b);
    assert Motion0(s) == Motion(Decelerating, b.millimeters, s.queue.speed);
  }

  lemma WithinPlan(q: Queue, t: real, exitSqr: real)
    requires PlannedFrom(q, t) && 1 < |q.blocks| && SoundBlocks(q.blocks)
    requires exitSqr <= TailSqr(q) && exitSqr <= Braking(q.blocks, 1)
    ensures exitSqr <= q.blocks[1].entrySqr
  {
    assert SoundBlock(q.blocks[0]);
    assert q.blocks[1].entrySqr == Plan(q.blocks, t, 1);
  }

  /** Less than a step is left of the hold. */
  lemma CutNothingAhead(s: State, t: real)
    requires Good(s) && Enabled(s, CutSegment) && Cuttable(s) && NextSteps(s) == 0 && Ahead(s, t)
    ensures Ahead(Cut(s), t)
  {
    SegmentSteps(s);
    SqrNonNegative(s.queue.speed);
    assert Sqr(0.0) == 0.0;
    SamePlan(s.queue, Cut(s).queue, t);
  }

  lemma CutOffAhead(s: State, t: real) returns (t': real)
    requires Good(s) && Enabled(s, CutSegment) && Cuttable(s) && 0 < NextSteps(s) && NextMotion(s).mm == 0.0
    requires PlannedFrom(s.queue, t)
    ensures PlannedFrom(Cut(s).queue, t') && !Begun(Cut(s))
    ensures 0 < |Cut(s).queue.blocks| ==> Sqr(Cut(s).profile.exitSpeed) <= Cut(s).queue.blocks[0].entrySqr
  {
    t' := 0.0;
    CompletesAtEnd(s);
    DiscardedBlocks(s.queue, NextMotion(s).mm, NextMotion(s).speed);
    if 1 < |s.queue.blocks| {
      DiscardedPlan(s.queue, t);
      LeftNoFaster(s, t);
      t' := s.queue.blocks[1].entrySqr;
      SamePlan(Discarded(s.queue), Cut(s).queue, t');
    }
  }

  lemma CutAhead(s: State, t: real) returns (t': real)
    requires Good(s) && Enabled(s, CutSegment) && Cuttable(s) && Ahead(s, t)
    ensures Ahead(Cut(s), t')
  {
    hide *;
    t' := t;
    AheadParts(s, t);
    SegmentSteps(s);
    SegmentFacts(s);
    if NextSteps(s) == 0 {
      CutNothingAhead(s, t);
    } else {
      if NextMotion(s).mm == 0.0 {
        t' := CutOffAhead(s, t);
      } else {
        CutOnBegun(s);
        t' := CutOnAhead(s, t);
      }
      if Cut(s).ended {
        CutAtRest(s);
      }
      AheadOf(Cut(s), t');
    }
  }

  lemma AheadParts(s: State, t: real)
    requires Ahead(s, t)
    ensures PlannedFrom(s.queue, t) && (s.ended ==> s.queue.speed == 0.0)
  {
  }

  lemma AheadOf(s: State, t: real)
    requires PlannedFrom(s.queue, t) && (s.ended ==> s.queue.speed == 0.0)
    requires !Begun(s) && 0 < |s.queue.blocks| ==> Sqr(s.profile.exitSpeed) <= s.queue.blocks[0].entrySqr
    ensures Ahead(s, t)
  {
  }

  lemma CutOnBegun(s: State)
    requires Enabled(s, CutSegment) && Cuttable(s) && 0 < NextSteps(s) && 0.0 < NextMotion(s).mm
    ensures Begun(Cut(s))
  {
  }

  lemma DiscardedBlocks(q: Queue, mm: real, speed: real)
    requires 0 < |q.blocks|
    ensures Discarded(Executed(q, mm, speed)) == Discarded(q).(speed := speed)
  {
  }

  /** Where a cut ends the preparation, the motion is at rest: a hold always comes to a full stop. */
  lemma CutAtRest(s: State)
    requires Good(s) && Enabled(s, CutSegment) && Cuttable(s) && Cut(s).ended
    ensures s.holding && Cut(s).queue.speed == 0.0
  {
    SegmentSteps(s);
    SegmentFacts(s);
  }

  lemma StopAhead(s: State, t: real) returns (t': real)
    requires Good(s) && Ahead(s, t)
    ensures Ahead(Stopped(s), t')
  {
    ReinitializedOptimal(s.queue);
    ReinitializedShape(s.queue);
    t' := 0.0;
    if 0 < |s.queue.blocks| {
      t' := TailSqr(Reinitialized(s.queue));
      OptimalIsPlanned(Reinitialized(s.queue));
    }
  }

  lemma HoldAhead(s: State, t: real)
    requires Good(s) && Enabled(s, FeedHold) && Ahead(s, t)
    ensures Ahead(Held(s), t)
  {
    UnloadedKeeps(s.queue);
    SamePlan(s.queue, Unloaded(s.queue), t);
  }

  lemma NextAhead(s: State, e: Event, root: real -> real, t: real) returns (t': real)
    requires SquareRoot(root) && Good(s) && Can(s, e) && Ahead(s, t)
    ensures Ahead(Next(s, e, root), t')
  {
    t' := t;
    match e
    case Append(target, g) => t' := AppendAhead(s, target, g, t);
    case Load => LoadAhead(s, root, t);
    case CutSegment => t' := CutAhead(s, t);
    case FeedHold => HoldAhead(s, t);
    case CycleStop => t' := StopAhead(s, t);
    case Resume =>
  }

  lemma StartIsAhead(states: seq<State>, events: seq<Event>, root: real -> real)
    requires Run(states, events, root)
    ensures |states| == |events| + 1 && Ahead(states[0], 0.0)
  {
  }

  lemma StateFollows(states: seq<State>, events: seq<Event>, root: real -> real, i: nat)
    requires Run(states, events, root) && i < |events|
    ensures |states| == |events| + 1 && Enabled(states[i], events[i])
    ensures Can(states[i], events[i]) ==> states[i + 1] == Next(states[i], events[i], root)
  {
    hide Enabled, Can, Next;
    assert Follows(states, events, root, i);
  }

  lemma {:induction false} RunIsAhead(states: seq<State>, events: seq<Event>, root: real -> real, i: nat)
    returns (t: real)
    requires SquareRoot(root) && Run(states, events, root) && i < |states|
    ensures Good(states[i]) && Ahead(states[i], t)
  {
    hide *;
    t := 0.0;
    RunIsGood(states, events, root, i);
    StartIsAhead(states, events, root);
    if 0 < i {
      var t0 := RunIsAhead(states, events, root, i - 1);
      StateFollows(states, events, root, i - 1);
      NextKeeps(states[i - 1], events[i - 1], root);
      t := NextAhead(states[i - 1], events[i - 1], root, t0);
    }
  }

  /** At every point of every run, holds included. */
  lemma AppendsThroughout(states: seq<State>, events: seq<Event>, root: real -> real, i: nat)
    requires SquareRoot(root) && Run(states, events, root) && i < |events| && events[i].Append?
    requires events[i].target != states[i].queue.position && states[i].queue.blocks != []
    ensures AppendedInTime(states[i].queue, states[i + 1].queue)
  {
    var t := RunIsAhead(states, events, root, i);
    AppendFollows(states, events, root, i);
    AheadParts(states[i], t);
    AppendedEither(states[i].queue, events[i].target, events[i].geometry, t);
  }

  lemma AppendFollows(states: seq<State>, events: seq<Event>, root: real -> real, i: nat)
    requires SquareRoot(root) && Run(states, events, root) && i < |events| && events[i].Append?
    requires |states| == |events| + 1 && Good(states[i])
    requires events[i].target != states[i].queue.position
    ensures states[i + 1].queue == Appended(states[i].queue, events[i].target, events[i].geometry)
    ensures Physical(events[i].geometry) && Sound(states[i].queue)
  {
    hide Run, Can, Sound, Optimal, OnCourse, Appended, Follows;
    StateFollows(states, events, root, i);
    NextKeeps(states[i], events[i], root);
    AppendIs(states[i], events[i], root);
  }

  lemma AppendIs(s: State, e: Event, root: real -> real)
    requires Can(s, e) && e.Append?
    ensures (s.queue.loaded ==> 0 < |s.queue.blocks|) && (0 < |s.queue.blocks| ==> s.queue.planned < |s.queue.blocks|)
    ensures Next(s, e, root).queue == Appended(s.queue, e.target, e.geometry)
  {
    hide Appended;
  }

  /** In every run, where a hold has been cut to its end the motion is at rest, and stays so until the resume. */
  lemma HoldEndsAtRest(states: seq<State>, events: seq<Event>, root: real -> real, i: nat)
    requires SquareRoot(root) && Run(states, events, root) && i < |states| && states[i].ended
    ensures states[i].queue.speed == 0.0
  {
    var t := RunIsAhead(states, events, root, i);
  }

  // ---------------------------------------------------------------------------------------------
  // A move that is planned too fast

  /** A short move and a long one, at the same acceleration and speed. */
  const SHORT := Geometry(0.0015, 36000.0, 12.0, 144.0)
  const LONG := Geometry(1.0, 36000.0, 12.0, 144.0)
  const ORIGIN := Steps(0, 0, 0)
  const CORNER := Steps(15, 0, 0)
  const FAR := Steps(10015, 0, 0)

  function ShortBlock(entrySqr: real, mm: real): Block {
    Block(MoveBetween(ORIGIN, CORNER), entrySqr, 0.0, 36000.0, mm, 12.0)
  }

  function LongBlock(entrySqr: real): Block {
    Block(MoveBetween(CORNER, FAR), entrySqr, 144.0, 36000.0, 1.0, 12.0)
  }

  /** The queue with both, the short one executed up to `mm` from its end. */
  function Both(entrySqr: real, mm: real, loaded: bool, recalculate: bool, speed: real): Queue {
    Queue([ShortBlock(entrySqr, mm), LongBlock(108.0)], 1, loaded, recalculate, speed, 12.0, FAR)
  }

  /** The long move is entered as fast as the short one can accelerate to. */
  lemma BothQueued()
    ensures Appended(Appended(AT_REST.queue, CORNER, SHORT), FAR, LONG) == Both(0.0, 0.0015, false, false, 0.0)
  {
    var q := Appended(AT_REST.queue, CORNER, SHORT);
    FirstQueued();
    var w := [ShortBlock(0.0, 0.0015), LongBlock(0.0)];
    assert Pushed(q, FAR, LONG).blocks == w;
    assert Reach(w[0]) == 108.0 && Reach(w[1]) == 72000.0;
    assert ReversePass(w, 1) == 144.0 && ForwardPass(w, 1) == 108.0;
    assert Replanned(w) == [ShortBlock(0.0, 0.0015), LongBlock(108.0)];
    assert Pointer(w) == 1;
  }

  lemma FirstQueued()
    ensures Appended(AT_REST.queue, CORNER, SHORT)
            == Queue([ShortBlock(0.0, 0.0015)], 0, false, false, 0.0, 12.0, CORNER)
  {
  }

  /** The states of a run up to the end of a hold in the short move. `exit` is the speed it was to be left at. */
  function InShort(queue: Queue, ramp: Ramp, p: Profile, remaining: int, holding: bool, ended: bool): State {
    State(queue, ramp, p, 10000.0, remaining, holding, ended)
  }

  function Through(exit: real): Profile {
    Profile(0.0, 0.0, exit, exit, 0.0)
  }

  function Stopping(exit: real): Profile {
    Profile(0.0, 0.0, exit, 0.0, 0.0005)
  }

  /** The short move is begun from rest; its whole length is spent accelerating. */
  lemma ShortBegun(root: real -> real)
    requires SquareRoot(root)
    ensures var s := AT_REST.(queue := Both(0.0, 0.0015, false, false, 0.0));
            var profile := Through(RootOf(root, 108.0));
            && Loadable(s)
            && Loaded(s, root) == InShort(Both(0.0, 0.0015, true, false, 0.0), Accelerating, profile, 15, false, false)
  {
    FreshShort(root);
    ThroughShort(root);
  }

  lemma FreshShort(root: real -> real)
    requires SquareRoot(root)
    ensures Fresh(AT_REST.(queue := Both(0.0, 0.0015, false, false, 0.0)), root)
            == InShort(Both(0.0, 0.0015, true, false, 0.0), Accelerating, AT_REST.profile, 15, false, false)
  {
    NoSpeed(root);
    assert 15.0 / 0.0015 == 10000.0;
  }

  lemma ThroughShort(root: real -> real)
    ensures Normal(Task(0.0015, 36000.0, 0.0, 108.0, 12.0), root, AT_REST.profile)
            == (Accelerating, Through(RootOf(root, 108.0)))
  {
    var t := Task(0.0015, 36000.0, 0.0, 108.0, 12.0);
    assert InvTwoAccel(t) * (0.0 - 108.0) == -0.0015;
    assert Intersection(t) == 0.0;
  }

  lemma NoSpeed(root: real -> real)
    requires SquareRoot(root)
    ensures RootOf(root, 0.0) == 0.0
  {
    assert Sqr(RootOf(root, 0.0)) == 0.0;
    SpeedsCompare(RootOf(root, 0.0), 0.0);
  }

  /** One segment is cut off it: five steps, up to a speed of 6. */
  lemma ShortCut(exit: real)
    requires 0.0 <= exit && Sqr(exit) == 108.0
    ensures var s := InShort(Both(0.0, 0.0015, true, false, 0.0), Accelerating, Through(exit), 15, false, false);
            Cuttable(s) && Cut(s)
              == InShort(Both(0.0, 0.001, true, false, 6.0), Accelerating, Through(exit), 10, false, false)
  {
    FirstPass(exit);
    var s := InShort(Both(0.0, 0.0015, true, false, 0.0), Accelerating, Through(exit), 15, false, false);
    assert MinimumMm(s) == 0.001375;
    SegmentIsPass(Through(exit), 0.001375);
    assert 10000.0 * 0.001 == 10.0;
  }

  lemma FirstPass(exit: real)
    requires 0.0 <= exit && Sqr(exit) == 108.0
    ensures var m := Motion(Accelerating, 0.0015, 0.0);
            && 0.0 < exit && Ready(Through(exit), 36000.0, m, FRESH_CLOCK)
            && Pass(Through(exit), 36000.0, 0.0015, m, DT_SEGMENT) == (Motion(Accelerating, 0.001, 6.0), DT_SEGMENT)
  {
    FirstGains();
    hide Gain, Sqr, SpeedGain, Covered;
    assert exit != 0.0;
  }

  lemma FirstGains()
    ensures Gain(36000.0, 0.0015) == 108.0 && Gain(36000.0, 0.0) == 0.0 && Sqr(0.0) == 0.0
    ensures SpeedGain(36000.0, DT_SEGMENT) == 6.0 && Covered(0.0, 6.0, DT_SEGMENT) == 0.0005
  {
  }

  lemma SegmentIsPass(p: Profile, minimumMm: real)
    requires var m := Motion(Accelerating, 0.0015, 0.0);
             && Ready(p, 36000.0, m, FRESH_CLOCK) && 0.001 <= minimumMm
             && Pass(p, 36000.0, 0.0015, m, DT_SEGMENT) == (Motion(Accelerating, 0.001, 6.0), DT_SEGMENT)
    ensures SegmentOf(p, 36000.0, Motion(Accelerating, 0.0015, 0.0), minimumMm) == Motion(Accelerating, 0.001, 6.0)
  {
    hide Pass, OnProfile, PassesLeft;
  }

  /** A hold is requested: the short move is taken up again, to stop halfway through the rest of it. */
  lemma ShortHeld(exit: real, root: real -> real)
    ensures var s := InShort(Both(0.0, 0.001, true, false, 6.0), Accelerating, Through(exit), 10, false, false);
            && Loadable(Held(s))
            && Loaded(Held(s), root)
               == InShort(Both(36.0, 0.001, true, false, 6.0), Decelerating, Stopping(exit), 10, true, false)
  {
    var s := InShort(Both(0.0, 0.001, true, false, 6.0), Accelerating, Through(exit), 10, false, false);
    assert Sqr(6.0) == 36.0;
    assert Held(s).queue == Both(36.0, 0.001, false, true, 6.0);
    assert HoldStop(Task(0.001, 36000.0, 36.0, 108.0, 12.0)) == 0.0005;
  }

  /** There the motion comes to rest, with five steps to go. */
  lemma ShortStopped(exit: real)
    ensures var s := InShort(Both(36.0, 0.001, true, false, 6.0), Decelerating, Stopping(exit), 10, true, false);
            Cuttable(s) && Cut(s)
              == InShort(Both(36.0, 0.0005, true, false, 0.0), Decelerating, Stopping(exit), 5, true, true)
  {
    var s := InShort(Both(36.0, 0.001, true, false, 6.0), Decelerating, Stopping(exit), 10, true, false);
    assert SpeedGain(36000.0, DT_SEGMENT) == 6.0;
    assert Sqr(6.0) == 36.0 && Sqr(0.0) == 0.0 && Gain(36000.0, 0.0005) == 36.0;
    assert NextMotion(s) == Motion(Decelerating, 0.0005, 0.0);
    assert 10000.0 * 0.0005 == 5.0;
  }

  /** Two moves are queued, the short one is begun, and a hold is cut to its end in it; then a move is appended. */
  function StrayEvents(target: Steps, g: Geometry): seq<Event> {
    [Append(CORNER, SHORT), Append(FAR, LONG), Load, CutSegment, FeedHold, Load, CutSegment, Append(target, g)]
  }

  ghost function StrayStates(root: real -> real, target: Steps, g: Geometry): seq<State> {
    var exit := RootOf(root, 108.0);
    var begun := InShort(Both(0.0, 0.001, true, false, 6.0), Accelerating, Through(exit), 10, false, false);
    var stopped := InShort(Both(36.0, 0.0005, true, false, 0.0), Decelerating, Stopping(exit), 5, true, true);
    [AT_REST,
     AT_REST.(queue := Queue([ShortBlock(0.0, 0.0015)], 0, false, false, 0.0, 12.0, CORNER)),
     AT_REST.(queue := Both(0.0, 0.0015, false, false, 0.0)),
     InShort(Both(0.0, 0.0015, true, false, 0.0), Accelerating, Through(exit), 15, false, false),
     begun,
     Held(begun),
     InShort(Both(36.0, 0.001, true, false, 6.0), Decelerating, Stopping(exit), 10, true, false),
     stopped,
     stopped.(queue := Appended(stopped.queue, target, g))]
  }

  /** That is a run, and whatever the last move is, it leaves a plan that is not the greatest. */
  lemma HeldMoveStrays(root: real -> real, target: Steps, g: Geometry)
    requires SquareRoot(root) && Physical(g) && target != FAR
    ensures var states := StrayStates(root, target, g);
            && Run(states, StrayEvents(target, g), root)
            && Sound(states[8].queue) && !Greatest(states[8].queue)
            && !Feasible(states[8].queue.blocks, TailSqr(states[8].queue), Entries(states[8].queue))
  {
    var states, events := StrayStates(root, target, g), StrayEvents(target, g);
    StrayRun(root, target, g);
    AppendsThroughout(states, events, root, 7);
    NotInReach();
    RunIsGood(states, events, root, 8);
  }

  lemma NotInReach()
    ensures !NextReachable(Both(36.0, 0.0005, true, false, 0.0))
  {
    assert Reach(ShortBlock(36.0, 0.0005)) == 36.0 && Sqr(0.0) == 0.0;
  }

  lemma StrayRun(root: real -> real, target: Steps, g: Geometry)
    requires SquareRoot(root) && Physical(g) && target != FAR
    ensures Run(StrayStates(root, target, g), StrayEvents(target, g), root)
  {
    var states, events, exit := StrayStates(root, target, g), StrayEvents(target, g), RootOf(root, 108.0);
    assert 0.0 <= exit && Sqr(exit) == 108.0;
    FirstQueued();
    BothQueued();
    ShortBegun(root);
    ShortCut(exit);
    ShortHeld(exit, root);
    ShortStopped(exit);
    hide Appended, Loaded, Cut, Held, Loadable, Cuttable;
    forall i | 0 <= i < |events|
      ensures Follows(states, events, root, i)
    {
    }
  }
}
