/** The planner ring as a value: which queue it holds, and what a replan of the ring does to that queue. */
module RingQueue {
  import opened Blocks
  import opened Ring
  import opened PlanTheory
  import opened PlannerPasses
  import opened PlannerQueue

  datatype RingState = RingState(
    slots: seq<Block>,
    tail: Index,
    head: Index,
    planned: Index,
    loaded: bool,
    recalculate: bool,
    speed: real,
    previousNominal: real,
    position: Steps)

  /** `n` consecutive slots of the ring, from `p` on. */
  function Slots(ring: seq<Block>, p: Index, n: nat): (s: seq<Block>)
    requires |ring| == 16 && n <= 16
    ensures |s| == n
    ensures forall j :: 0 <= j < n ==> s[j] == ring[At(p, j)]
  {
    seq(n, j requires 0 <= j < n => ring[At(p, j)])
  }

  /** Number of queued blocks. */
  function Count(s: RingState): nat {
    Dist(s.tail, s.head)
  }

  /** The cached index lies among the queued blocks. */
  predicate PlannedInRange(s: RingState) {
    Dist(s.tail, s.planned) < Count(s)
  }

  /** Length of the part of the ring a replan walks: from the cached index up to the head. */
  function WindowLength(s: RingState): nat {
    Span(s.planned, s.head)
  }

  /** Squared entry speed of the block at the cached index, the block in execution brought up to date. */
  function BaseSqr(s: RingState): real
    requires |s.slots| == 16
  {
    if s.loaded && s.planned == s.tail then Sqr(s.speed) else s.slots[s.planned].entrySqr
  }

  /** The ring from the cached index on, the block in execution brought up to date if it comes first. */
  function Walk(s: RingState): (w: seq<Block>)
    requires |s.slots| == 16
    ensures |w| == 16
  {
    Slots(s.slots, s.planned, 16)[0 := s.slots[s.planned].(entrySqr := BaseSqr(s))]
  }

  /** What holds of the ring whether or not the cached index is astray. */
  predicate Intact(s: RingState) {
    |s.slots| == 16 && AllNonNegative(s.slots) && (s.loaded ==> PlannedInRange(s))
  }

  /** While moves are queued the cached index is among them; an empty queue says nothing about it. */
  predicate Consistent(s: RingState) {
    Intact(s) && (s.head != s.tail ==> PlannedInRange(s))
  }

  /** The queued blocks, oldest first. */
  function QueueOf(s: RingState): (q: Queue)
    requires |s.slots| == 16
    ensures |q.blocks| == Count(s)
  {
    Queue(Slots(s.slots, s.tail, Count(s)), if s.head == s.tail then 0 else Dist(s.tail, s.planned),
          s.loaded, s.recalculate, s.speed, s.previousNominal, s.position)
  }

  /** What the two passes over the window `w` do to the ring; `rest` is the remainder of it. */
  ghost predicate Replans(s: RingState, s': RingState, w: seq<Block>, rest: seq<Block>)
    requires |s.slots| == 16 && 0 < |w|
  {
    && s' == s.(slots := s'.slots, planned := s'.planned, loaded := s'.loaded, recalculate := s'.recalculate)
    && |s'.slots| == 16
    && if |w| == 1 then s' == s
       else && s'.loaded == (s.loaded && s.planned != s.tail)
            && s'.recalculate == (s.recalculate || (s.loaded && s.planned == s.tail))
            && Slots(s'.slots, s.planned, 16) == Replanned(w) + rest
            && s'.planned == At(s.planned, Pointer(w))
  }

  /** The queue has a cached index to start from, or is empty, or has only a move starting from rest. */
  predicate Replannable(s: RingState) {
    && Intact(s)
    && (PlannedInRange(s) || s.head == s.tail
      || (Count(s) == 1 && s.slots[s.tail].maxEntrySqr == 0.0 == s.slots[s.tail].entrySqr))
  }

  /** The queue a replan of the ring leaves. A stray cached index is taken for the oldest block. */
  function ReplannedQueue(s: RingState): Queue
    requires Replannable(s)
  {
    if s.head == s.tail then QueueOf(s)
    else Recalculated(if PlannedInRange(s) then QueueOf(s) else QueueOf(s).(planned := 0))
  }

  lemma RecalculatedIs(q: Queue, r: Queue, w: seq<Block>)
    requires q.loaded ==> 0 < |q.blocks|
    requires q.planned + 1 < |q.blocks| && w == Window(q)
    requires r.blocks == q.blocks[..q.planned] + Replanned(w) && r.planned == q.planned + Pointer(w)
    requires r.loaded == (q.loaded && q.planned != 0)
    requires r.recalculate == (q.recalculate || (q.loaded && q.planned == 0))
    requires r.speed == q.speed && r.previousNominal == q.previousNominal && r.position == q.position
    ensures r == Recalculated(q)
  {
    assert UpToDate(q).blocks[..q.planned] == q.blocks[..q.planned];
  }

  /** Rewriting the window rewrites the queue from the cached index on, and nothing before it. */
  lemma ReplannedInPlace(
      ring: seq<Block>, ring': seq<Block>, tail: Index, p: nat, count: nat, w: seq<Block>, rest: seq<Block>)
    requires |ring| == |ring'| == 16 && p < count < 16 && |w| == count - p && |rest| == 16 - |w|
    requires (w + rest)[1..] == Slots(ring, At(tail, p), 16)[1..]
    requires Slots(ring', At(tail, p), 16) == Replanned(w) + rest
    ensures Slots(ring', tail, count) == Slots(ring, tail, count)[..p] + Replanned(w)
  {
    forall j | 0 <= j < count
      ensures Slots(ring', tail, count)[j] == (Slots(ring, tail, count)[..p] + Replanned(w))[j]
    {
      if j < p {
        assert Slots(ring', At(tail, p), 16)[16 - p + j] == rest[16 - p + j - |w|];
        assert (w + rest)[1..][15 - p + j] == Slots(ring, At(tail, p), 16)[1..][15 - p + j];
      } else {
        assert Slots(ring', At(tail, p), 16)[j - p] == Replanned(w)[j - p];
      }
    }
  }

  lemma ReplannedNonNegative(ring: seq<Block>, ring': seq<Block>, p: Index, w: seq<Block>, rest: seq<Block>)
    requires |ring| == |ring'| == 16 && 0 < |w| && |rest| == 16 - |w|
    requires (w + rest)[1..] == Slots(ring, p, 16)[1..] && NonNegative(w[0])
    requires Slots(ring', p, 16) == Replanned(w) + rest
    requires AllNonNegative(ring)
    ensures AllNonNegative(ring')
  {
    forall j | 0 < j < 16
      ensures NonNegative((w + rest)[j])
    {
      assert (w + rest)[1..][j - 1] == Slots(ring, p, 16)[1..][j - 1];
    }
    forall j | 0 <= j < |w|
      ensures NonNegative(w[j])
    {
      assert w[j] == (w + rest)[j];
    }
    forall j | 0 <= j < 16
      ensures NonNegative(ring'[At(p, j)])
    {
      assert Slots(ring', p, 16)[j] == (Replanned(w) + rest)[j];
      if j < |w| {
        ForwardNonNegative(w, j);
      } else {
        assert rest[j - |w|] == (w + rest)[j];
      }
    }
    forall i | 0 <= i < 16
      ensures NonNegative(ring'[i])
    {
      assert i == At(p, Dist(p, i));
    }
  }

  /**
   A replan whose newest block must start from rest settles on that block, wherever it started: the first
   move into an empty queue brings a stray cached index back.
   */
  lemma FirstMoveSettles(w: seq<Block>)
    requires 1 < |w| && w[|w| - 1].maxEntrySqr == 0.0
    requires AllNonNegative(w)
    ensures Pointer(w) == |w| - 1 && Replanned(w)[|w| - 1] == w[|w| - 1].(entrySqr := 0.0)
  {
    ForwardNonNegative(w, |w| - 2);
    assert ReversePass(w, |w| - 1) == 0.0;
  }

  lemma FirstMoveInPlace(ring: seq<Block>, ring': seq<Block>, p: Index, tail: Index, w: seq<Block>, rest: seq<Block>)
    requires |ring| == |ring'| == 16 && 1 < |w| && |rest| == 16 - |w| && At(p, |w| - 1) == tail
    requires (w + rest)[1..] == Slots(ring, p, 16)[1..] && NonNegative(w[0])
    requires AllNonNegative(ring)
    requires ring[tail].maxEntrySqr == 0.0 == ring[tail].entrySqr
    requires Slots(ring', p, 16) == Replanned(w) + rest
    ensures Pointer(w) == |w| - 1 && ring'[tail] == ring[tail]
  {
    forall j | 0 < j < |w|
      ensures w[j] == ring[At(p, j)]
    {
      assert (w + rest)[1..][j - 1] == Slots(ring, p, 16)[1..][j - 1];
    }
    FirstMoveSettles(w);
    assert Slots(ring', p, 16)[|w| - 1] == Replanned(w)[|w| - 1];
  }

  /** Counted from the tail, the window is the queue from the cached index on. */
  lemma WindowIsWalk(s: RingState)
    requires Intact(s) && PlannedInRange(s)
    ensures WindowLength(s) == Count(s) - Dist(s.tail, s.planned)
    ensures Walk(s)[..WindowLength(s)] == Window(QueueOf(s))
  {
    var w, v := Walk(s)[..WindowLength(s)], Window(QueueOf(s));
    AtDist(s.tail, s.planned);
    forall j | 0 <= j < |w|
      ensures w[j] == v[j]
    {
      assert UpToDate(QueueOf(s)).blocks[QueueOf(s).planned + j] == v[j];
    }
  }

  /** The walk splits into the window and the rest. */
  lemma WalkFacts(s: RingState, w: seq<Block>, rest: seq<Block>)
    requires Intact(s) && w == Walk(s)[..WindowLength(s)] && rest == Walk(s)[WindowLength(s)..]
    ensures w + rest == Walk(s)
    ensures (w + rest)[1..] == Slots(s.slots, s.planned, 16)[1..]
    ensures NonNegative(w[0])
    ensures forall j :: 0 <= j < |w| ==> 0.0 <= Reach(w[j])
  {
    SqrNonNegative(s.speed);
    assert w + rest == Walk(s);
    assert NonNegative(s.slots[s.planned]);
    forall j | 0 < j < |w|
      ensures 0.0 <= Reach(w[j])
    {
      assert w[j] == s.slots[At(s.planned, j)];
      assert NonNegative(s.slots[At(s.planned, j)]);
    }
  }

  lemma QueueReplanned(s: RingState, s': RingState, w: seq<Block>, rest: seq<Block>)
    requires Intact(s) && PlannedInRange(s) && 1 < |w| == Count(s) - Dist(s.tail, s.planned) && |rest| == 16 - |w|
    requires w == Window(QueueOf(s)) && (w + rest)[1..] == Slots(s.slots, s.planned, 16)[1..]
    requires Replans(s, s', w, rest)
    ensures PlannedInRange(s') && QueueOf(s') == Recalculated(QueueOf(s))
  {
    AtDist(s.tail, s.planned);
    ReplannedInPlace(s.slots, s'.slots, s.tail, Dist(s.tail, s.planned), Count(s), w, rest);
    DistFurther(s.tail, s.planned, Pointer(w));
    RecalculatedIs(QueueOf(s), QueueOf(s'), w);
  }

  /** The same with a stray cached index: the first move becomes the cached index. */
  lemma FirstMoveReplanned(s: RingState, s': RingState, w: seq<Block>, rest: seq<Block>)
    requires Replannable(s) && !PlannedInRange(s) && s.head != s.tail
    requires 1 < |w| == WindowLength(s) && |rest| == 16 - |w|
    requires (w + rest)[1..] == Slots(s.slots, s.planned, 16)[1..] && NonNegative(w[0])
    requires Replans(s, s', w, rest)
    ensures PlannedInRange(s') && QueueOf(s') == QueueOf(s).(planned := 0)
  {
    AtDist(s.planned, s.head);
    FirstMoveInPlace(s.slots, s'.slots, s.planned, s.tail, w, rest);
    assert QueueOf(s').blocks == [s'.slots[s.tail]];
  }

  /**
   Replanning the ring replans the queue it holds. A stray cached index does no harm: an empty queue stays
   empty, and a first move, starting from rest, becomes the cached index.
   */
  lemma ReplansQueue(s: RingState, s': RingState, w: seq<Block>, rest: seq<Block>)
    requires Replannable(s) && w == Walk(s)[..WindowLength(s)] && rest == Walk(s)[WindowLength(s)..]
    requires Replans(s, s', w, rest)
    ensures Consistent(s') && QueueOf(s') == ReplannedQueue(s)
  {
    WalkFacts(s, w, rest);
    if 1 < |w| {
      ReplannedNonNegative(s.slots, s'.slots, s.planned, w, rest);
      if PlannedInRange(s) {
        WindowIsWalk(s);
        QueueReplanned(s, s', w, rest);
      } else if s.head != s.tail {
        FirstMoveReplanned(s, s', w, rest);
      }
    }
  }

  /** The ring with one more block in its first free slot. */
  function WithBlock(s: RingState, b: Block): RingState
    requires |s.slots| == 16
  {
    s.(slots := s.slots[s.head := b], head := NextIndex(s.head))
  }

  /** The ring as it is replanned for a new move. */
  function Filled(s: RingState, target: Steps, g: Geometry): RingState
    requires |s.slots| == 16
  {
    WithBlock(s, NewBlock(QueueOf(s), MoveBetween(s.position, target), g)).(previousNominal :=
      g.nominalSpeed, position := target)
  }

  lemma NewBlockNonNegative(q: Queue, m: Move, g: Geometry)
    requires Physical(g) && 0.0 <= q.previousNominal
    ensures var b := NewBlock(q, m, g);
            NonNegative(b) && b.entrySqr == 0.0 && (q.blocks == [] ==> b.maxEntrySqr == 0.0)
  {
    var b := NewBlock(q, m, g);
    MaxEntryBounds(g, q.previousNominal, if q.blocks == [] then 0.0 else g.junctionSqr);
    assert Reach(b) == 2.0 * (g.acceleration * g.millimeters);
  }

  /** Writing the first free slot and moving the head on puts the block at the end of the queue. */
  lemma FilledQueue(s: RingState, target: Steps, g: Geometry)
    requires Consistent(s) && Count(s) < 15 && Physical(g) && 0.0 <= s.previousNominal
    ensures var f := Filled(s, target, g);
            && Replannable(f)
            && ReplannedQueue(f) == Recalculated(Pushed(QueueOf(s), target, g))
  {
    var f, b := Filled(s, target, g), NewBlock(QueueOf(s), MoveBetween(s.position, target), g);
    NewBlockNonNegative(QueueOf(s), MoveBetween(s.position, target), g);
    assert Count(f) == Count(s) + 1;
    assert Slots(f.slots, s.tail, Count(s) + 1) == Slots(s.slots, s.tail, Count(s)) + [b];
    assert Pushed(QueueOf(s), target, g) == if PlannedInRange(f) then QueueOf(f) else QueueOf(f).(planned := 0);
  }

  /** The slot at the head is not part of the queue. */
  lemma FreeSlot(s: RingState, b: Block)
    requires Consistent(s) && NonNegative(b)
    ensures var f := s.(slots := s.slots[s.head := b]);
            Consistent(f) && QueueOf(f) == QueueOf(s)
  {
    var f := s.(slots := s.slots[s.head := b]);
    assert Slots(f.slots, s.tail, Count(s)) == Slots(s.slots, s.tail, Count(s));
  }

  /** The ring once the speed reached is written into the block in execution and the block let go of. */
  function Released(s: RingState): RingState
    requires |s.slots| == 16
  {
    s.(loaded := false, recalculate := s.recalculate || s.loaded,
       slots := if s.loaded then s.slots[s.tail := s.slots[s.tail].(entrySqr := Sqr(s.speed))] else s.slots)
  }

  lemma ReleasedQueue(s: RingState)
    requires Consistent(s)
    ensures Consistent(Released(s)) && QueueOf(Released(s)) == Unloaded(QueueOf(s))
  {
    SqrNonNegative(s.speed);
    assert QueueOf(Released(s)).blocks == Unloaded(QueueOf(s)).blocks;
  }

  /** Starting the cached index over at the tail. */
  lemma RestartedQueue(s: RingState)
    requires Consistent(s)
    ensures var r := Released(s).(planned := s.tail); Replannable(r) && ReplannedQueue(r) == Reinitialized(QueueOf(s))
  {
    var r := Released(s).(planned := s.tail);
    ReleasedQueue(s);
    assert QueueOf(r) == Unloaded(QueueOf(s)).(planned := 0);
  }

  lemma WithoutFirstQueue(s: RingState, s': RingState)
    requires Consistent(s) && s.head != s.tail
    requires s' == s.(tail := NextIndex(s.tail), planned := if s.planned == s.tail then NextIndex(s.tail)
             else s.planned, loaded := false)
    ensures Consistent(s')
    ensures QueueOf(s') == Discarded(QueueOf(s))
  {
    assert Slots(s'.slots, s'.tail, Count(s')) == Slots(s.slots, s.tail, Count(s))[1..];
  }

  /** The block at the tail with another entry speed and another distance left. */
  function TailWritten(s: RingState, entrySqr: real, millimeters: real): RingState
    requires |s.slots| == 16
  {
    s.(slots := s.slots[s.tail := s.slots[s.tail].(entrySqr := entrySqr, millimeters := millimeters)])
  }

  lemma TailWrittenQueue(s: RingState, entrySqr: real, millimeters: real)
    requires Consistent(s) && s.head != s.tail
    requires 0.0 <= entrySqr && 0.0 <= Gain(s.slots[s.tail].acceleration, millimeters)
    ensures var w, q := TailWritten(s, entrySqr, millimeters), QueueOf(s);
            && Consistent(w)
            && QueueOf(w) == q.(blocks := q.blocks[0 := q.blocks[0].(entrySqr := entrySqr, millimeters := millimeters)])
  {
    var w, q := TailWritten(s, entrySqr, millimeters), QueueOf(s);
    assert QueueOf(w).blocks == q.blocks[0 := q.blocks[0].(entrySqr := entrySqr, millimeters := millimeters)];
  }
}
