/**
 The planner's queue as a value: the blocks from oldest to newest, the cached index counted from the
 oldest, and the segment generator's hold on the oldest block.
 */
module PlannerQueue {
  import opened Blocks
  import opened PlanTheory
  import opened PlannerPasses

  datatype Steps = Steps(x: int, y: int, z: int)

  /** A position in millimetres, or steps per millimetre, axis by axis. */
  datatype Point = Point(x: real, y: real, z: real)

  /** Rounding to the nearest whole number, halves away from zero. */
  function Lround(x: real): (n: int)
    ensures -0.5 <= n as real - x <= 0.5
    ensures n as real - x == 0.5 ==> 0.0 <= x
    ensures n as real - x == -0.5 ==> x < 0.0
  {
    if x < 0.0 then -((-x + 0.5).Floor) else (x + 0.5).Floor
  }

  /** A target in whole steps. */
  function StepsOf(target: Point, scale: Point): Steps {
    Steps(Lround(target.x * scale.x), Lround(target.y * scale.y), Lround(target.z * scale.z))
  }

  /** Length, axis-limited acceleration, nominal speed and junction limit of a move, computed from its direction. */
  datatype Geometry = Geometry(millimeters: real, acceleration: real, nominalSpeed: real, junctionSqr: real)

  const MINIMUM_FEED_RATE := 1.0

  predicate Physical(g: Geometry) {
    0.0 < g.millimeters && 0.0 < g.acceleration && MINIMUM_FEED_RATE <= g.nominalSpeed && 0.0 <= g.junctionSqr
  }

  function Abs(n: int): nat {
    if n < 0 then -n else n
  }

  function Max(m: nat, n: nat): nat {
    if m > n then m else n
  }

  /** The step counts and directions of a straight move between two positions in whole steps. */
  function MoveBetween(a: Steps, b: Steps): (m: Move)
    ensures m.events == 0 <==> a == b
    ensures m.events != 0 ==> WellFormed(m)
    ensures b.x == if m.negativeX then a.x - m.stepsX else a.x + m.stepsX
    ensures b.y == if m.negativeY then a.y - m.stepsY else a.y + m.stepsY
    ensures b.z == a.z + m.stepsZ || b.z == a.z - m.stepsZ
    ensures (m.stepsX == 0 ==> !m.negativeX) && (m.stepsY == 0 ==> !m.negativeY)
  {
    Move(Abs(b.x - a.x), Abs(b.y - a.y), Abs(b.z - a.z),
         Max(Max(Abs(b.x - a.x), Abs(b.y - a.y)), Abs(b.z - a.z)), b.x < a.x, b.y < a.y)
  }

  datatype Queue = Queue(
    blocks: seq<Block>,
    planned: nat,
    loaded: bool,
    recalculate: bool,
    speed: real,
    previousNominal: real,
    position: Steps)

  /** Squared speed at which the oldest block is entered now. */
  function TailSqr(q: Queue): real
    requires 0 < |q.blocks|
  {
    if q.loaded then Sqr(q.speed) else q.blocks[0].entrySqr
  }

  /** The speed reached is written back into the oldest block, which is let go. */
  function Unloaded(q: Queue): Queue
    requires q.loaded ==> 0 < |q.blocks|
  {
    if q.loaded
    then q.(blocks := q.blocks[0 := q.blocks[0].(entrySqr := Sqr(q.speed))], recalculate := true, loaded := false)
    else q
  }

  /** A replan that starts at the oldest block takes the speed reached in it into account. */
  function UpToDate(q: Queue): Queue
    requires q.loaded ==> 0 < |q.blocks|
  {
    if q.planned == 0 then Unloaded(q) else q
  }

  /** The blocks a replan walks. */
  function Window(q: Queue): (w: seq<Block>)
    requires q.loaded ==> 0 < |q.blocks|
    requires q.planned < |q.blocks|
    ensures |w| == |q.blocks| - q.planned
  {
    UpToDate(q).blocks[q.planned..]
  }

  /** Squared speed at which the walked blocks are entered. */
  function Base(q: Queue): real
    requires q.planned < |q.blocks|
  {
    if q.planned == 0 then TailSqr(q) else q.blocks[q.planned].entrySqr
  }

  /** A replan from the cached index on. */
  function Recalculated(q: Queue): Queue
    requires q.loaded ==> 0 < |q.blocks|
    requires 0 < |q.blocks| ==> q.planned < |q.blocks|
  {
    if |q.blocks| <= q.planned + 1 then q
    else
      var u := UpToDate(q);
      u.(blocks := u.blocks[..q.planned] + Replanned(Window(q)), planned := q.planned + Pointer(Window(q)))
  }

  function MaxEntrySqr(g: Geometry, previousNominal: real, junctionSqr: real): real {
    Min(if g.nominalSpeed > previousNominal then Sqr(previousNominal) else Sqr(g.nominalSpeed),
        junctionSqr)
  }

  /** The record of a new move. Into an empty queue it starts from rest. */
  function NewBlock(q: Queue, m: Move, g: Geometry): Block {
    Block(m, 0.0, MaxEntrySqr(g, q.previousNominal, if q.blocks == [] then 0.0 else g.junctionSqr),
          g.acceleration, g.millimeters, g.nominalSpeed)
  }

  /** The queue before it is replanned for a new move to `target`. */
  function Pushed(q: Queue, target: Steps, g: Geometry): Queue {
    q.(blocks := q.blocks + [NewBlock(q, MoveBetween(q.position, target), g)],
       planned := if q.blocks == [] then 0 else q.planned,
       previousNominal := g.nominalSpeed,
       position := target)
  }

  /** A new move; a move of no steps is dropped. */
  function Appended(q: Queue, target: Steps, g: Geometry): Queue
    requires q.loaded ==> 0 < |q.blocks|
    requires 0 < |q.blocks| ==> q.planned < |q.blocks|
  {
    if target == q.position then q else Recalculated(Pushed(q, target, g))
  }

  /** The oldest block is finished. */
  function Discarded(q: Queue): Queue {
    if q.blocks == [] then q
    else q.(blocks := q.blocks[1..], planned := if q.planned == 0 then 0 else q.planned - 1, loaded := false)
  }

  /** Everything is replanned from the speed reached, as after a feed hold. */
  function Reinitialized(q: Queue): Queue
    requires q.loaded ==> 0 < |q.blocks|
  {
    Recalculated(Unloaded(q).(planned := 0))
  }

  // ---------------------------------------------------------------------------------------------
  // What every run keeps

  /** Limits every queued block respects. */
  ghost predicate SoundBlock(b: Block) {
    && Plannable(b)
    && 0.0 < b.acceleration
    && MINIMUM_FEED_RATE <= b.nominalSpeed
    && 0.0 <= b.entrySqr <= Sqr(b.nominalSpeed)
    && b.maxEntrySqr <= Sqr(b.nominalSpeed)
  }

  /** A junction is not entered faster than the block before it may run. */
  ghost predicate Joined(b: Block, next: Block) {
    next.maxEntrySqr <= Sqr(b.nominalSpeed)
  }

  ghost predicate SoundBlocks(bs: seq<Block>) {
    && (forall i :: 0 <= i < |bs| ==> SoundBlock(bs[i]))
    && (forall i, j :: 0 <= i && j == i + 1 && j < |bs| ==> Joined(bs[i], bs[j]))
    && BelowBraking(bs)
  }

  /** Limits that hold at all times, feed holds included. */
  ghost predicate Sound(q: Queue) {
    && (q.loaded ==> 0 < |q.blocks|)
    && 0.0 <= q.speed
    && 0.0 <= q.previousNominal
    && SoundBlocks(q.blocks)
    && (0 < |q.blocks| ==>
          && q.planned < |q.blocks|
          && q.previousNominal == q.blocks[|q.blocks| - 1].nominalSpeed
          && CanStop(q.blocks, TailSqr(q))
          && TailSqr(q) <= Sqr(q.blocks[0].nominalSpeed))
  }

  /** The plan is the greatest one and the cached index is at a pinned block. */
  ghost predicate Optimal(q: Queue)
    requires Sound(q)
  {
    && (forall i :: 1 <= i < |q.blocks| ==> q.blocks[i].entrySqr == Plan(q.blocks, TailSqr(q), i))
    && (0 < |q.blocks| ==> Pinned(q.blocks, TailSqr(q), q.planned))
  }

  /** The same blocks up to their entry speeds. */
  predicate SameShape(a: seq<Block>, b: seq<Block>) {
    |a| == |b| && forall i :: 0 <= i < |a| ==> SameButEntry(a[i], b[i])
  }

  lemma {:induction false} ShapeBraking(a: seq<Block>, b: seq<Block>, i: nat)
    requires SameShape(a, b) && i <= |a|
    ensures Braking(a, i) == Braking(b, i)
    decreases |a| - i
  {
    if i < |a| {
      ShapeBraking(a, b, i + 1);
    }
  }

  lemma {:induction false} ShapePlan(a: seq<Block>, b: seq<Block>, t: real, i: nat)
    requires SameShape(a, b) && i < |a|
    ensures Plan(a, t, i) == Plan(b, t, i)
  {
    if 0 < i {
      ShapeBraking(a, b, i);
      ShapePlan(a, b, t, i - 1);
    }
  }

  lemma {:induction false} ShapePinned(a: seq<Block>, b: seq<Block>, t: real, i: nat)
    requires SameShape(a, b) && i < |a|
    ensures Pinned(a, t, i) == Pinned(b, t, i)
  {
    if 0 < i {
      ShapePlan(a, b, t, i);
      ShapePlan(a, b, t, i - 1);
      ShapePinned(a, b, t, i - 1);
    }
  }

  /** New entry speeds below the braking limit keep the blocks sound. */
  lemma SameShapeSound(a: seq<Block>, b: seq<Block>)
    requires SoundBlocks(a) && SameShape(a, b)
    requires forall i :: 0 <= i < |b| ==> 0.0 <= b[i].entrySqr <= Sqr(b[i].nominalSpeed)
    requires forall i :: 1 <= i < |b| ==> b[i].entrySqr <= Braking(a, i)
    ensures SoundBlocks(b)
  {
    forall i | 1 <= i < |b|
      ensures b[i].entrySqr <= Braking(b, i)
    {
      ShapeBraking(a, b, i);
    }
    forall i, j | 0 <= i && j == i + 1 && j < |b|
      ensures Joined(b[i], b[j])
    {
      assert Joined(a[i], a[j]);
    }
    forall i | 0 <= i < |b|
      ensures SoundBlock(b[i])
    {
      assert SoundBlock(a[i]);
    }
  }

  lemma UnloadedKeeps(q: Queue)
    requires Sound(q)
    ensures Sound(Unloaded(q)) && SameShape(q.blocks, Unloaded(q).blocks)
    ensures 0 < |q.blocks| ==> TailSqr(Unloaded(q)) == TailSqr(q)
  {
    if q.loaded {
      var u := Unloaded(q);
      forall i | 0 <= i < |u.blocks|
        ensures 0.0 <= u.blocks[i].entrySqr <= Sqr(u.blocks[i].nominalSpeed)
      {
        assert SoundBlock(q.blocks[i]);
      }
      SameShapeSound(q.blocks, u.blocks);
      ShapeBraking(q.blocks, u.blocks, 1);
    }
  }

  lemma WindowFacts(q: Queue)
    requires Sound(q) && q.planned < |q.blocks|
    ensures var w := Window(q);
            && BelowBraking(w)
            && AllPlannable(w)
            && w[0].entrySqr == Base(q)
            && 0.0 <= Base(q)
            && SameShape(q.blocks[q.planned..], w)
  {
    var u, p, w := UpToDate(q), q.planned, Window(q);
    UnloadedKeeps(q);
    forall i | 1 <= i < |w|
      ensures w[i].entrySqr <= Braking(w, i)
    {
      BrakingShift(u.blocks, p, i);
    }
    forall i | 0 <= i < |w|
      ensures Plannable(w[i])
    {
      assert SoundBlock(u.blocks[p + i]);
    }
    assert SoundBlock(q.blocks[p]);
  }

  /** The entry speeds a replan leaves behind the cached index: the plan that starts there. */
  lemma RecalculatedEntries(q: Queue, i: nat)
    requires Sound(q) && q.planned + 1 < |q.blocks| && q.planned <= i < |q.blocks|
    ensures var r := Recalculated(q);
            && |r.blocks| == |q.blocks|
            && r.blocks[i] == Window(q)[i - q.planned].(entrySqr := Plan(q.blocks[q.planned..], Base(q), i - q.planned))
            && SameButEntry(q.blocks[i], r.blocks[i])
  {
    var p, w := q.planned, Window(q);
    WindowFacts(q);
    ForwardPassIsPlan(w, i - p);
    ShapePlan(q.blocks[p..], w, Base(q), i - p);
    assert Recalculated(q).blocks[i] == Replanned(w)[i - p];
    assert SameButEntry(q.blocks[p..][i - p], w[i - p]);
  }

  lemma RecalculatedShape(q: Queue)
    requires Sound(q)
    ensures var r := Recalculated(q);
            && SameShape(q.blocks, r.blocks)
            && r.(blocks := [], planned := 0, loaded := false, recalculate := false)
               == q.(blocks := [], planned := 0, loaded := false, recalculate := false)
            && (0 < |q.blocks| ==> q.planned <= r.planned < |q.blocks| && TailSqr(r) == TailSqr(q))
  {
    if q.planned + 1 < |q.blocks| {
      forall i | 0 <= i < |q.blocks|
        ensures SameButEntry(q.blocks[i], Recalculated(q).blocks[i])
      {
        if q.planned <= i {
          RecalculatedEntries(q, i);
        }
      }
      RecalculatedEntries(q, q.planned);
    }
  }

  /** Entry speeds at or before the cached index are left alone, apart from the block in execution. */
  lemma RecalculatedKept(q: Queue, i: nat)
    requires Sound(q) && 1 <= i <= q.planned < |q.blocks|
    ensures |Recalculated(q).blocks| == |q.blocks| && Recalculated(q).blocks[i] == q.blocks[i]
  {
    if q.planned + 1 < |q.blocks| {
      assert Recalculated(q).blocks[q.planned] == Replanned(q.blocks[q.planned..])[0];
    }
  }

  lemma RecalculatedLimit(q: Queue, i: nat)
    requires Sound(q) && i < |q.blocks|
    ensures |Recalculated(q).blocks| == |q.blocks|
    ensures var b := Recalculated(q).blocks[i];
            0.0 <= b.entrySqr <= Sqr(b.nominalSpeed) && (1 <= i ==> b.entrySqr <= Braking(q.blocks, i))
  {
    assert SoundBlock(q.blocks[i]);
    var p := q.planned;
    if p + 1 < |q.blocks| && p <= i {
      RecalculatedEntries(q, i);
      WindowPlanLimit(q, i - p);
    }
  }

  lemma WindowPlanLimit(q: Queue, i: nat)
    requires Sound(q) && q.planned + i < |q.blocks|
    ensures var e, b := Plan(q.blocks[q.planned..], Base(q), i), q.blocks[q.planned + i];
            0.0 <= e <= Sqr(b.nominalSpeed) && (1 <= q.planned + i ==> e <= Braking(q.blocks, q.planned + i))
  {
    var p := q.planned;
    var w := q.blocks[p..];
    WindowFacts(q);
    assert SoundBlock(q.blocks[p]);
    assert AllPlannable(w) by {
      forall j | 0 <= j < |w|
        ensures Plannable(w[j])
      {
        assert SoundBlock(q.blocks[p + j]);
      }
    }
    PlanNonNegative(w, Base(q), i);
    BrakingShift(q.blocks, p, i);
    if 0 < i {
      assert Joined(q.blocks[p + i - 1], q.blocks[p + i]);
    }
  }

  /** Replanning keeps the limits, whatever speed the motion has reached. */
  lemma RecalculatedSound(q: Queue)
    requires Sound(q)
    ensures Sound(Recalculated(q))
  {
    var r := Recalculated(q);
    RecalculatedShape(q);
    forall i | 0 <= i < |q.blocks|
      ensures 0.0 <= r.blocks[i].entrySqr <= Sqr(r.blocks[i].nominalSpeed)
      ensures 1 <= i ==> r.blocks[i].entrySqr <= Braking(q.blocks, i)
    {
      RecalculatedLimit(q, i);
    }
    SameShapeSound(q.blocks, r.blocks);
    if 0 < |q.blocks| {
      ShapeBraking(q.blocks, r.blocks, 1);
    }
  }

  /** Up to the cached index the speeds are those planned for an entry at `t`. */
  ghost predicate EntriesUpTo(q: Queue, t: real)
    requires q.planned < |q.blocks|
  {
    && (q.planned == 0 ==> t == TailSqr(q))
    && forall i :: 1 <= i <= q.planned ==> q.blocks[i].entrySqr == Plan(q.blocks, t, i)
  }

  /** Up to the cached index the plan is already the greatest one. */
  ghost predicate SettledSoFar(q: Queue)
    requires Sound(q)
  {
    0 < |q.blocks| ==> Pinned(q.blocks, TailSqr(q), q.planned) && EntriesUpTo(q, TailSqr(q))
  }

  lemma BaseIsPlanned(q: Queue, t: real)
    requires q.planned < |q.blocks| && EntriesUpTo(q, t)
    ensures Base(q) == Plan(q.blocks, t, q.planned)
  {
  }

  /** A replan then leaves every block at the speed planned for that entry. */
  lemma RecalculatedEntry(q: Queue, t: real, i: nat)
    requires Sound(q) && q.planned + 1 < |q.blocks| && EntriesUpTo(q, t) && 1 <= i < |q.blocks|
    ensures |Recalculated(q).blocks| == |q.blocks|
    ensures Recalculated(q).blocks[i].entrySqr == Plan(q.blocks, t, i)
  {
    if q.planned <= i {
      EntryInWindow(q, t, i - q.planned);
    } else {
      RecalculatedKept(q, i);
    }
  }

  lemma EntryInWindow(q: Queue, t: real, i: nat)
    requires Sound(q) && q.planned + 1 < |q.blocks| && EntriesUpTo(q, t) && q.planned + i < |q.blocks|
    ensures |Recalculated(q).blocks| == |q.blocks|
    ensures Recalculated(q).blocks[q.planned + i].entrySqr == Plan(q.blocks, t, q.planned + i)
  {
    hide *;
    BaseIsPlanned(q, t);
    RecalculatedEntries(q, q.planned + i);
    PlanShift(q.blocks, t, q.planned, i);
  }

  /**
   A replan from the cached index on leaves the greatest plan exactly when the speeds before the index were those
   of the greatest plan already.
   */
  lemma RecalculatedExactly(q: Queue)
    requires Sound(q) && q.planned + 1 < |q.blocks|
    ensures |Recalculated(q).blocks| == |q.blocks|
    ensures (forall i :: 1 <= i < |q.blocks| ==> Recalculated(q).blocks[i].entrySqr == Plan(q.blocks, TailSqr(q), i))
            <==> forall i :: 1 <= i <= q.planned ==> q.blocks[i].entrySqr == Plan(q.blocks, TailSqr(q), i)
  {
    RecalculatedShape(q);
    forall i | 1 <= i <= q.planned
      ensures Recalculated(q).blocks[i] == q.blocks[i]
    {
      RecalculatedKept(q, i);
    }
    if forall i :: 1 <= i <= q.planned ==> q.blocks[i].entrySqr == Plan(q.blocks, TailSqr(q), i) {
      forall i | 1 <= i < |q.blocks|
        ensures Recalculated(q).blocks[i].entrySqr == Plan(q.blocks, TailSqr(q), i)
      {
        RecalculatedEntry(q, TailSqr(q), i);
      }
    }
  }

  /** Replanning only from the cached index on makes the whole plan the greatest one. */
  lemma RecalculatedOptimal(q: Queue)
    requires Sound(q) && SettledSoFar(q)
    ensures Sound(Recalculated(q)) && Optimal(Recalculated(q))
  {
    RecalculatedShape(q);
    RecalculatedSound(q);
    if q.planned + 1 < |q.blocks| {
      RecalculatedPlan(q, TailSqr(q));
    }
  }

  /** The plan for an entry at `t`, and its pinned blocks, are found again after a replan. */
  lemma RecalculatedPlan(q: Queue, t: real)
    requires Sound(q) && q.planned + 1 < |q.blocks| && EntriesUpTo(q, t) && Pinned(q.blocks, t, q.planned)
    ensures var r := Recalculated(q);
            && |r.blocks| == |q.blocks| && r.planned < |r.blocks|
            && (forall i :: 1 <= i < |r.blocks| ==> r.blocks[i].entrySqr == Plan(r.blocks, t, i))
            && Pinned(r.blocks, t, r.planned)
  {
    RecalculatedShape(q);
    PlannedAgain(q, t);
    RecalculatedPointer(q);
    hide *;
    WindowPinned(q, t);
    ShapePinned(q.blocks, Recalculated(q).blocks, t, Recalculated(q).planned);
  }

  lemma RecalculatedPointer(q: Queue)
    requires Sound(q) && q.planned + 1 < |q.blocks|
    ensures Recalculated(q).planned == q.planned + Pointer(Window(q)) < |q.blocks|
  {
  }

  lemma PlannedAgain(q: Queue, t: real)
    requires Sound(q) && q.planned + 1 < |q.blocks| && EntriesUpTo(q, t)
    ensures var r := Recalculated(q);
            |r.blocks| == |q.blocks| && forall i :: 1 <= i < |r.blocks| ==> r.blocks[i].entrySqr == Plan(r.blocks, t, i)
  {
    hide *;
    RecalculatedShape(q);
    ShapeLength(q.blocks, Recalculated(q).blocks);
    forall i | 1 <= i < |q.blocks|
      ensures Recalculated(q).blocks[i].entrySqr == Plan(Recalculated(q).blocks, t, i)
    {
      ShapePlan(q.blocks, Recalculated(q).blocks, t, i);
      RecalculatedEntry(q, t, i);
    }
  }

  lemma ShapeLength(a: seq<Block>, b: seq<Block>)
    requires SameShape(a, b)
    ensures |a| == |b|
  {
  }

  /** The window's pointer, counted from the oldest block, is at a pinned block. */
  lemma PinnedFromWindow(bs: seq<Block>, w: seq<Block>, t: real, p: nat)
    requires p < |bs| && SameShape(bs[p..], w) && AllPlannable(w) && BelowBraking(w)
    requires Pinned(bs, t, p) && w[0].entrySqr == Plan(bs, t, p)
    ensures Pinned(bs, t, p + Pointer(w))
  {
    PointerIsPinned(w);
    ShapePinned(bs[p..], w, Plan(bs, t, p), Pointer(w));
    PinnedUnshift(bs, t, p, Pointer(w));
  }

  lemma WindowPinned(q: Queue, t: real)
    requires Sound(q) && q.planned < |q.blocks| && EntriesUpTo(q, t) && Pinned(q.blocks, t, q.planned)
    ensures Pinned(q.blocks, t, q.planned + Pointer(Window(q)))
  {
    hide *;
    BaseIsPlanned(q, t);
    WindowFacts(q);
    PinnedFromWindow(q.blocks, Window(q), t, q.planned);
  }

  // ---------------------------------------------------------------------------------------------
  // The operations

  lemma MaxEntryBounds(g: Geometry, previousNominal: real, junctionSqr: real)
    requires Physical(g) && 0.0 <= previousNominal && 0.0 <= junctionSqr
    ensures var m := MaxEntrySqr(g, previousNominal, junctionSqr);
            && 0.0 <= m <= Sqr(g.nominalSpeed) && m <= Sqr(previousNominal) && m <= junctionSqr
            && (m == Sqr(g.nominalSpeed) || m == Sqr(previousNominal) || m == junctionSqr)
  {
    if g.nominalSpeed > previousNominal {
      SquareMonotone(previousNominal, g.nominalSpeed);
    } else {
      SquareMonotone(g.nominalSpeed, previousNominal);
    }
  }

  lemma SquareMonotone(x: real, y: real)
    requires 0.0 <= x <= y
    ensures 0.0 <= Sqr(x) <= Sqr(y)
  {
  }

  lemma PushedSound(q: Queue, target: Steps, g: Geometry)
    requires Sound(q) && Physical(g)
    ensures Sound(Pushed(q, target, g))
    ensures 0 < |q.blocks| ==> TailSqr(Pushed(q, target, g)) == TailSqr(q)
  {
    var r := Pushed(q, target, g);
    var b := r.blocks[|q.blocks|];
    MaxEntryBounds(g, q.previousNominal, if q.blocks == [] then 0.0 else g.junctionSqr);
    SquareMonotone(MINIMUM_FEED_RATE, g.nominalSpeed);
    assert Reach(b) == 2.0 * (g.acceleration * g.millimeters);
    forall i | 1 <= i < |r.blocks|
      ensures r.blocks[i].entrySqr <= Braking(r.blocks, i)
    {
      if i < |q.blocks| {
        AppendingRaisesBraking(q.blocks, [b], i);
      } else {
        BrakingNonNegative(r.blocks, i);
      }
    }
    if 0 < |q.blocks| {
      AppendingRaisesBraking(q.blocks, [b], 1);
    } else {
      BrakingNonNegative(r.blocks, 1);
    }
  }

  lemma PushedSettled(q: Queue, target: Steps, g: Geometry)
    requires Sound(q) && Physical(g) && Optimal(q)
    ensures Sound(Pushed(q, target, g)) && SettledSoFar(Pushed(q, target, g))
  {
    var r := Pushed(q, target, g);
    PushedSound(q, target, g);
    if 0 < |q.blocks| {
      var b := r.blocks[|q.blocks|];
      assert AllPlannable([b]) by {
        assert Plannable(r.blocks[|q.blocks|]);
      }
      PinnedIsFinal(q.blocks, TailSqr(q), q.planned, [b]);
    }
  }

  /** How fast a move may be entered: from rest if it is the first, else as its junction and both rates allow. */
  ghost predicate EntryLimit(m: real, q: Queue, g: Geometry) {
    if q.blocks == [] then m == 0.0
    else
      && m <= g.junctionSqr && m <= Sqr(q.previousNominal) && m <= Sqr(g.nominalSpeed)
      && (m == g.junctionSqr || m == Sqr(q.previousNominal) || m == Sqr(g.nominalSpeed))
  }

  /** The record is that of the geometry. */
  ghost predicate RecordOf(b: Block, q: Queue, target: Steps, g: Geometry) {
    && b.acceleration == g.acceleration && b.millimeters == g.millimeters && b.nominalSpeed == g.nominalSpeed
    && b.move == MoveBetween(q.position, target)
    && EntryLimit(b.maxEntrySqr, q, g)
  }

  lemma NewRecord(q: Queue, target: Steps, g: Geometry)
    requires Physical(g) && 0.0 <= q.previousNominal
    ensures RecordOf(NewBlock(q, MoveBetween(q.position, target), g), q, target, g)
  {
    MaxEntryBounds(g, q.previousNominal, if q.blocks == [] then 0.0 else g.junctionSqr);
    SqrNonNegative(q.previousNominal);
    SqrNonNegative(g.nominalSpeed);
    hide MaxEntrySqr, Sqr, Physical;
  }

  /** The block queued for a move is that of its geometry, and may be entered as fast as its junction allows. */
  lemma QueuedForMove(q: Queue, target: Steps, g: Geometry)
    requires Sound(q) && Physical(g) && target != q.position
    ensures var r := Appended(q, target, g);
            && |r.blocks| == |q.blocks| + 1 && r.previousNominal == g.nominalSpeed && r.position == target
            && SameShape(q.blocks, r.blocks[..|q.blocks|])
            && RecordOf(r.blocks[|q.blocks|], q, target, g)
  {
    var p, r, n := Pushed(q, target, g), Appended(q, target, g), |q.blocks|;
    PushedSound(q, target, g);
    RecalculatedShape(p);
    NewRecord(q, target, g);
    hide Appended, Recalculated, NewBlock, EntryLimit, Sound;
    assert SameButEntry(p.blocks[n], r.blocks[n]);
    forall i | 0 <= i < n
      ensures SameButEntry(q.blocks[i], r.blocks[i])
    {
      assert SameButEntry(p.blocks[i], r.blocks[i]);
    }
  }

  /** A new move keeps the limits, and keeps the plan the greatest one. */
  lemma AppendedKeeps(q: Queue, target: Steps, g: Geometry)
    requires Sound(q) && Physical(g)
    ensures Sound(Appended(q, target, g))
    ensures Optimal(q) ==> Optimal(Appended(q, target, g))
  {
    if target != q.position {
      PushedSound(q, target, g);
      RecalculatedSound(Pushed(q, target, g));
      if Optimal(q) {
        PushedSettled(q, target, g);
        RecalculatedOptimal(Pushed(q, target, g));
      }
    }
  }

  /** After a stop, or whenever everything is replanned, the plan is the greatest one again. */
  lemma ReinitializedOptimal(q: Queue)
    requires Sound(q)
    ensures Sound(Reinitialized(q)) && Optimal(Reinitialized(q)) && !Reinitialized(q).loaded
    ensures 0 < |q.blocks| ==> TailSqr(Reinitialized(q)) == TailSqr(q)
  {
    var u := Unloaded(q).(planned := 0);
    UnloadedKeeps(q);
    RecalculatedOptimal(u);
    RecalculatedShape(u);
  }

  /** The oldest block is finished at exactly the speed planned for the next one. */
  lemma DiscardedKeeps(q: Queue)
    requires Sound(q) && 0 < |q.blocks|
    ensures Sound(Discarded(q))
    ensures Optimal(q) ==> Optimal(Discarded(q))
  {
    TailSound(q.blocks);
    if 1 < |q.blocks| {
      assert SoundBlock(q.blocks[1]);
      BrakingShift(q.blocks, 1, 1);
      assert q.blocks[1].entrySqr <= Braking(q.blocks, 1);
      if Optimal(q) {
        DiscardedOptimal(q);
      }
    }
  }

  lemma TailSound(bs: seq<Block>)
    requires SoundBlocks(bs) && 0 < |bs|
    ensures SoundBlocks(bs[1..])
  {
    var d := bs[1..];
    forall i | 1 <= i < |d|
      ensures d[i].entrySqr <= Braking(d, i)
    {
      BrakingShift(bs, 1, i);
    }
    forall i, j | 0 <= i && j == i + 1 && j < |d|
      ensures Joined(d[i], d[j])
    {
      assert Joined(bs[i + 1], bs[j + 1]);
    }
  }

  lemma DiscardedOptimal(q: Queue)
    requires Sound(q) && 1 < |q.blocks| && Optimal(q) && Sound(Discarded(q))
    ensures Optimal(Discarded(q))
  {
    var d, t := Discarded(q), TailSqr(q);
    assert TailSqr(d) == Plan(q.blocks, t, 1);
    forall i | 1 <= i < |d.blocks|
      ensures d.blocks[i].entrySqr == Plan(d.blocks, TailSqr(d), i)
    {
      PlanShift(q.blocks, t, 1, i);
    }
    if 0 < q.planned {
      PinnedShift(q.blocks, t, 1, q.planned - 1);
    }
  }
}
