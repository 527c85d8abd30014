/** Queued blocks and the moves they were queued for: through whole runs they keep the limits they were given. */
module Junctions {
  import opened Blocks
  import opened PlanTheory
  import opened PlannerPasses
  import opened PlannerQueue
  import opened Profile
  import opened Execution

  /** A move in the queue, and the greatest squared speed at which it may be entered. */
  datatype Order = Order(geometry: Geometry, limit: real)

  /** The least of the junction speed and both nominal speeds, squared; the first move starts from rest. */
  function LimitOf(os: seq<Order>, g: Geometry): real {
    if os == [] then 0.0
    else Min(g.junctionSqr, Min(Sqr(os[|os| - 1].geometry.nominalSpeed), Sqr(g.nominalSpeed)))
  }

  /** The moves queued at state `i`, told by the events alone and by how many blocks there are. */
  ghost function Orders(states: seq<State>, events: seq<Event>, i: nat): seq<Order>
    requires i <= |events| < |states|
  {
    if i == 0 then []
    else NextOrders(states[i - 1].queue, states[i].queue, events[i - 1], Orders(states, events, i - 1))
  }

  /** A move that leads elsewhere is queued; the oldest is let go of when it has been cut. */
  function NextOrders(q: Queue, q': Queue, e: Event, os: seq<Order>): seq<Order> {
    if e.Append? && e.target != q.position then os + [Order(e.geometry, LimitOf(os, e.geometry))]
    else if os != [] && |q'.blocks| < |q.blocks| then os[1..]
    else os
  }

  /** A block is that of its move, executed or not. */
  predicate For(b: Block, o: Order) {
    && b.acceleration == o.geometry.acceleration
    && b.nominalSpeed == o.geometry.nominalSpeed
    && b.millimeters <= o.geometry.millimeters
    && b.maxEntrySqr == o.limit
  }

  /** A block not begun has its whole length, and is not planned to be entered faster than its limit. */
  predicate Unbegun(b: Block, o: Order) {
    b.millimeters == o.geometry.millimeters && b.entrySqr <= o.limit
  }

  ghost predicate Queued(bs: seq<Block>, begun: bool, os: seq<Order>) {
    && |os| == |bs|
    && (forall k :: 0 <= k < |os| ==> For(bs[k], os[k]))
    && forall k :: 0 <= k < |os| && (0 < k || !begun) ==> Unbegun(bs[k], os[k])
  }

  ghost predicate Kept(s: State, os: seq<Order>) {
    Queued(s.queue.blocks, Begun(s), os)
  }

  lemma LimitIs(m: real, q: Queue, g: Geometry, os: seq<Order>)
    requires EntryLimit(m, q, g) && |os| == |q.blocks|
    requires os != [] ==> q.previousNominal == os[|os| - 1].geometry.nominalSpeed
    ensures m == LimitOf(os, g)
  {
    hide Sqr;
  }

  /** Other entry speeds, within the limits of a queue that can stop. */
  lemma SameOrders(s: State, s': State, os: seq<Order>)
    requires Kept(s, os) && SameShape(s.queue.blocks, s'.queue.blocks) && Sound(s'.queue) && (Begun(s) ==> Begun(s'))
    requires os != [] && !Begun(s') ==> s'.queue.blocks[0].entrySqr == s.queue.blocks[0].entrySqr
    ensures Kept(s', os)
  {
    forall k | 0 <= k < |os|
      ensures For(s'.queue.blocks[k], os[k]) && (0 < k || !Begun(s') ==> Unbegun(s'.queue.blocks[k], os[k]))
    {
      assert SameButEntry(s.queue.blocks[k], s'.queue.blocks[k]);
      if 0 < k {
        EntryWithin(s'.queue, k);
      }
    }
  }

  lemma EntryWithin(q: Queue, k: nat)
    requires Sound(q) && 0 < k < |q.blocks|
    ensures q.blocks[k].entrySqr <= q.blocks[k].maxEntrySqr
  {
  }

  lemma OneMore(bs: seq<Block>, bs': seq<Block>, begun: bool, os: seq<Order>, o: Order)
    requires Queued(bs, begun, os) && |bs'| == |bs| + 1 && SameShape(bs, bs'[..|bs|])
    requires For(bs'[|bs|], o) && bs'[|bs|].millimeters == o.geometry.millimeters
    requires forall k :: 0 < k < |bs'| ==> bs'[k].entrySqr <= bs'[k].maxEntrySqr
    requires !begun ==> if bs == [] then bs'[0].entrySqr <= bs'[0].maxEntrySqr else bs'[0] == bs[0]
    ensures Queued(bs', begun, os + [o])
  {
    forall k | 0 <= k < |bs'|
      ensures For(bs'[k], (os + [o])[k])
      ensures 0 < k || !begun ==> Unbegun(bs'[k], (os + [o])[k])
    {
      if k < |bs| {
        assert SameButEntry(bs[k], bs'[..|bs|][k]);
      }
    }
  }

  lemma AppendOrders(s: State, target: Steps, g: Geometry, os: seq<Order>)
    requires Good(s) && Enabled(s, Append(target, g)) && Kept(s, os) && target != s.queue.position
    ensures Kept(WithMove(s, target, g), os + [Order(g, LimitOf(os, g))])
  {
    hide Good, Appended, Sound, LimitOf, EntryLimit, Physical, SameShape, Queued, RecordOf, For, MoveBetween, Optimal;
    hide OnCourse, StepsMatch, Braking;
    PreviousIsLast(s, os);
    var q, r, n := s.queue, WithMove(s, target, g).queue, |os|;
    QueuedForMove(q, target, g);
    AppendedShape(q, target, g);
    RecordFor(r.blocks[n], q, target, g, os);
    FirstRests(q, target, g);
    forall k | 0 < k < |r.blocks|
      ensures r.blocks[k].entrySqr <= r.blocks[k].maxEntrySqr
    {
      EntryWithin(r, k);
    }
    OneMore(q.blocks, r.blocks, Begun(s), os, Order(g, LimitOf(os, g)));
  }

  lemma RecordFor(b: Block, q: Queue, target: Steps, g: Geometry, os: seq<Order>)
    requires RecordOf(b, q, target, g) && |os| == |q.blocks|
    requires os != [] ==> q.previousNominal == os[|os| - 1].geometry.nominalSpeed
    ensures For(b, Order(g, LimitOf(os, g))) && b.millimeters == g.millimeters
  {
    LimitIs(b.maxEntrySqr, q, g, os);
    hide LimitOf, EntryLimit;
  }

  lemma FirstRests(q: Queue, target: Steps, g: Geometry)
    requires Sound(q) && Physical(g) && target != q.position
    ensures q.blocks == [] ==>
              var r := Appended(q, target, g); r.blocks != [] && r.blocks[0].entrySqr <= r.blocks[0].maxEntrySqr
  {
    SquareMonotone(0.0, g.nominalSpeed);
    SqrNonNegative(q.previousNominal);
  }

  lemma PreviousIsLast(s: State, os: seq<Order>)
    requires Good(s) && Kept(s, os)
    ensures Sound(s.queue) && |os| == |s.queue.blocks|
    ensures os != [] ==> s.queue.previousNominal == os[|os| - 1].geometry.nominalSpeed
  {
    if os != [] {
      assert For(s.queue.blocks[|os| - 1], os[|os| - 1]);
    }
  }

  lemma LoadOrders(s: State, os: seq<Order>, root: real -> real)
    requires SquareRoot(root) && Good(s) && Enabled(s, Load) && Kept(s, os)
    ensures Loadable(s) && Kept(Loaded(s, root), os) && |Loaded(s, root).queue.blocks| == |s.queue.blocks|
    ensures !Begun(s) ==> Sqr(Loaded(s, root).queue.speed) <= os[0].limit
  {
    LoadKeeps(s, root);
    if !s.queue.recalculate {
      assert For(s.queue.blocks[0], os[0]) && Unbegun(s.queue.blocks[0], os[0]);
    }
  }

  lemma Shorter(bs: seq<Block>, os: seq<Order>, mm: real)
    requires Queued(bs, true, os) && bs != [] && mm <= bs[0].millimeters
    ensures Queued(bs[0 := bs[0].(millimeters := mm)], true, os)
    ensures Queued(bs[1..], false, os[1..])
  {
    assert For(bs[0], os[0]);
    forall k | 0 <= k < |bs| - 1
      ensures For(bs[1..][k], os[1..][k]) && Unbegun(bs[1..][k], os[1..][k])
    {
      assert For(bs[k + 1], os[k + 1]) && Unbegun(bs[k + 1], os[k + 1]);
    }
  }

  lemma CutOrders(s: State, os: seq<Order>)
    requires Good(s) && Enabled(s, CutSegment) && Kept(s, os)
    ensures Cuttable(s) && Kept(Cut(s), NextOrders(s.queue, Cut(s).queue, CutSegment, os))
  {
    SegmentSteps(s);
    SegmentFacts(s);
    CutCases(s);
    hide Good, Cuttable, NextMotion, NextSteps, Queued, Cut;
    Shorter(s.queue.blocks, os, NextMotion(s).mm);
  }

  lemma CutCases(s: State)
    requires Good(s) && Enabled(s, CutSegment) && Cuttable(s)
    ensures s.queue.blocks != []
    ensures var bs, r := s.queue.blocks, Cut(s);
            || (r.queue.blocks == bs && Begun(r))
            || (r.queue.blocks == bs[0 := bs[0].(millimeters := NextMotion(s).mm)] && Begun(r))
            || (r.queue.blocks == bs[1..] && !Begun(r))
  {
    hide NextMotion, NextSteps, OnCourse, Optimal, StepsMatch, Cuttable;
    var bs := s.queue.blocks;
    assert bs[0 := bs[0].(millimeters := NextMotion(s).mm)][1..] == bs[1..];
  }

  lemma StopOrders(s: State, os: seq<Order>)
    requires Good(s) && Kept(s, os)
    ensures Kept(Stopped(s), os)
  {
    StopKeeps(s);
    ReinitializedShape(s.queue);
    SameOrders(s, Stopped(s), os);
  }

  lemma HoldOrders(s: State, os: seq<Order>)
    requires Good(s) && Kept(s, os)
    ensures Kept(Held(s), os)
  {
    UnloadedKeeps(s.queue);
    SameOrders(s, Held(s), os);
  }

  lemma OrdersKept(s: State, e: Event, os: seq<Order>, root: real -> real)
    requires SquareRoot(root) && Good(s) && Enabled(s, e) && Kept(s, os)
    ensures Can(s, e) && Kept(Next(s, e, root), NextOrders(s.queue, Next(s, e, root).queue, e, os))
  {
    NextKeeps(s, e, root);
    match e
    case Append(target, g) =>
      if target != s.queue.position {
        AppendOrders(s, target, g, os);
      }
    case Load => LoadOrders(s, os, root);
    case CutSegment => CutOrders(s, os);
    case FeedHold => HoldOrders(s, os);
    case CycleStop => StopOrders(s, os);
      ReinitializedShape(s.queue);
    case Resume =>
  }

  /**
   In every run each block is that of the move it was queued for, and none but the one begun is planned to be entered
   faster than the junction of that move and both nominal speeds allow.
   */
  lemma {:induction false} JunctionsAreObeyed(states: seq<State>, events: seq<Event>, root: real -> real, i: nat)
    requires SquareRoot(root) && Run(states, events, root) && i < |states|
    ensures Good(states[i]) && Kept(states[i], Orders(states, events, i))
  {
    hide Good, Can, Enabled, Next, NextOrders;
    RunIsGood(states, events, root, i);
    if i == 0 {
      assert |Orders(states, events, 0)| == 0;
    } else {
      JunctionsAreObeyed(states, events, root, i - 1);
      assert Follows(states, events, root, i - 1);
      OrdersKept(states[i - 1], events[i - 1], Orders(states, events, i - 1), root);
    }
  }

  /** And the one that is begun is entered within its limit, in a hold as well. */
  lemma BlocksAreEnteredWithinLimits(states: seq<State>, events: seq<Event>, root: real -> real, i: nat)
    requires SquareRoot(root) && Run(states, events, root) && i < |events| && events[i] == Load && !Begun(states[i])
    ensures var os := Orders(states, events, i); os != [] && Sqr(states[i + 1].queue.speed) <= os[0].limit
  {
    hide Good, Can, Next, Loaded;
    JunctionsAreObeyed(states, events, root, i);
    assert Follows(states, events, root, i);
    NextKeeps(states[i], Load, root);
    LoadOrders(states[i], Orders(states, events, i), root);
    LoadIs(states[i], root);
  }

  lemma LoadIs(s: State, root: real -> real)
    requires Can(s, Load)
    ensures Next(s, Load, root) == Loaded(s, root)
  {
  }
}
