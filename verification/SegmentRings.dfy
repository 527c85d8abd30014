/**
 The two rings between the main program and the stepper interrupt: six slots of segments and five slots of
 block data, shared by the segments cut from one block. Counts are kept in words as wide as the program's.
 */
module SegmentRings {
  import opened Blocks
  import opened Bresenham
  import opened Tracer

  type SegmentIndex = i: nat | i < 6

  type BlockIndex = i: nat | i < 5

  function Word16(n: int): nat {
    n % 0x1_0000
  }

  function Word32(n: int): nat {
    n % 0x1_0000_0000
  }

  /** Stepping data of a block, scaled by eight. The second motor of the X axis has a direction bit of its own. */
  datatype StepBlock = StepBlock(
    stepsX: nat, stepsY: nat, eventCount: nat, negativeX: bool, negativeY: bool, negativeX2: bool)

  /** The motors driven: the X axis has two. */
  datatype Motor = X1 | X2 | Y1

  /** Step and direction bits for the motors. */
  datatype Pins = Pins(stepX: bool, stepY: bool, stepX2: bool, negativeX: bool, negativeY: bool, negativeX2: bool)

  datatype Segment = Segment(ticks: nat, blockIndex: BlockIndex, level: Level)

  /**
   `next` are the bits worked out for the next tick, and `pins` those last put out. `running` says whether the timer
   interrupt is on.
   */
  datatype Rings = Rings(
    segments: seq<Segment>,
    blocks: seq<StepBlock>,
    tail: SegmentIndex,
    head: SegmentIndex,
    prepIndex: BlockIndex,
    executing: bool,
    stepCount: nat,
    execIndex: BlockIndex,
    counterX: nat,
    counterY: nat,
    incrementX: nat,
    incrementY: nat,
    next: Pins,
    pins: Pins,
    running: bool,
    x: int,
    y: int)

  predicate Sized(s: Rings) {
    |s.segments| == 6 && |s.blocks| == 5
  }

  function NextSegment(i: SegmentIndex): SegmentIndex {
    if i + 1 == 6 then 0 else i + 1
  }

  function NextBlock(i: BlockIndex): BlockIndex {
    if i + 1 == 5 then 0 else i + 1
  }

  /** The slot `n` places after `base` in the segment ring. */
  function SegmentAt(base: SegmentIndex, n: nat): SegmentIndex
    requires n < 6
  {
    if base + n < 6 then base + n else base + n - 6
  }

  function SegmentCount(s: Rings): nat {
    if s.tail <= s.head then s.head - s.tail else s.head + 6 - s.tail
  }

  function Scaled(m: Move): StepBlock {
    StepBlock(Word32(8 * m.stepsX), Word32(8 * m.stepsY), Word32(8 * m.events), m.negativeX, m.negativeY, m.negativeX)
  }

  /** The main program copies the data of a new block into the next slot. */
  function BlockLoaded(s: Rings, m: Move): Rings
    requires Sized(s)
  {
    var i := NextBlock(s.prepIndex);
    s.(prepIndex := i, blocks := s.blocks[i := Scaled(m)])
  }

  /** The main program pushes a segment of the block loaded last. */
  function SegmentPushed(s: Rings, steps: nat, level: Level): Rings
    requires Sized(s)
  {
    s.(segments := s.segments[s.head := Segment(Word16(steps * Ticks(level)), s.prepIndex, level)],
       head := NextSegment(s.head))
  }

  /** The timer is switched on. The step bits of the axes are cleared, but not that of the second motor. */
  function WokenUp(s: Rings): Rings {
    s.(next := s.next.(stepX := false, stepY := false), running := true)
  }

  /** The block of the next segment is taken up; counters start anew when it is another one. */
  function BlockBegun(s: Rings): (r: Rings)
    requires Sized(s)
    ensures Sized(r)
  {
    var g := s.segments[s.tail];
    var b := s.blocks[g.blockIndex];
    if s.execIndex == g.blockIndex then s
    else s.(execIndex := g.blockIndex, counterX := b.eventCount / 2, counterY := b.eventCount / 2)
  }

  /** The interrupt takes up the next segment. The directions are those of its block. */
  function SegmentBegun(s: Rings): Rings
    requires Sized(s)
  {
    var g, c := s.segments[s.tail], BlockBegun(s);
    var b := c.blocks[c.execIndex];
    c.(executing := true, stepCount := g.ticks,
       next := c.next.(negativeX := b.negativeX, negativeY := b.negativeY, negativeX2 := b.negativeX2),
       incrementX := b.stepsX / Ticks(g.level), incrementY := b.stepsY / Ticks(g.level))
  }

  /** One axis of the tracer, in 32-bit words. */
  function AxisTick(counter: nat, increment: nat, eventCount: nat): (nat, bool) {
    var c := Word32(counter + increment);
    if c > eventCount then (c - eventCount, true) else (c, false)
  }

  /** One tick of both axes. */
  function AxesStepped(s: Rings): Rings
    requires Sized(s)
  {
    var b := s.blocks[s.execIndex];
    var (cx, px) := AxisTick(s.counterX, s.incrementX, b.eventCount);
    var (cy, py) := AxisTick(s.counterY, s.incrementY, b.eventCount);
    s.(counterX := cx, counterY := cy, next := s.next.(stepX := px, stepY := py, stepX2 := px),
       x := s.x + if px then Signed(b.negativeX, 1) else 0,
       y := s.y + if py then Signed(b.negativeY, 1) else 0)
  }

  /** One tick is counted; the segment is let go of with its last one. */
  function Counted(s: Rings): Rings {
    var n := Word16(s.stepCount - 1);
    s.(stepCount := n, executing := n != 0, tail := if n == 0 then NextSegment(s.tail) else s.tail)
  }

  /** One tick of the segment in execution. */
  function SegmentStepped(s: Rings): Rings
    requires Sized(s)
  {
    Counted(AxesStepped(s))
  }

  /**
   The interrupt. It first puts out the bits worked out the last time. With no segment to take up it then switches
   itself off.
   */
  function Interrupt(s: Rings): Rings
    requires Sized(s)
  {
    var d := s.(pins := s.next);
    if d.executing then SegmentStepped(d)
    else if d.head == d.tail then d.(running := false)
    else SegmentStepped(SegmentBegun(d))
  }

  // ---------------------------------------------------------------------------------------------
  // The rings carry out the tracing

  /** Where the data of move `k` is kept. */
  function SlotOf(k: int): BlockIndex
    requires -1 <= k
  {
    (k + 1) % 5
  }

  function Encoded(p: Piece): Segment {
    Segment(p.steps * Ticks(p.level), SlotOf(p.serial), p.level)
  }

  /** Counts fit their words. */
  predicate Fits(t: Ideal) {
    && (forall k :: 0 <= k < |t.moves| ==> t.moves[k].events < 0x1000_0000)
    && (forall j :: 0 <= j < |t.pending| ==> t.pending[j].steps * Ticks(t.pending[j].level) < 0x1_0000)
  }

  /** The ring of segments holds the pending pieces in order. */
  ghost predicate SegmentsLinked(s: Rings, t: Ideal)
    requires Sized(s)
  {
    && |t.pending| == SegmentCount(s)
    && forall j :: 0 <= j < |t.pending| ==> s.segments[SegmentAt(s.tail, j)] == Encoded(t.pending[j])
  }

  /** The last five moves loaded are in their slots, and no pending piece is of an older one. */
  ghost predicate BlocksLinked(s: Rings, t: Ideal)
    requires Sized(s)
  {
    && s.prepIndex == SlotOf(|t.moves| - 1)
    && (forall k :: 0 <= k < |t.moves| && |t.moves| - 5 <= k ==> s.blocks[SlotOf(k)] == Scaled(t.moves[k]))
    && (t.pending != [] ==> |t.moves| - 5 <= t.pending[0].serial)
  }

  ghost predicate CountersLinked(s: Rings, t: Ideal)
    requires -1 <= t.exec < |t.moves| && forall k :: 0 <= k < |t.moves| ==> WellFormed(t.moves[k])
  {
    && s.execIndex == SlotOf(t.exec)
    && s.executing == (0 < t.left)
    && s.stepCount == t.left
    && (0 <= t.exec ==>
          var m := t.moves[t.exec];
          assert WellFormed(m);
          && s.counterX == Counter(m.stepsX, m.events, t.units)
          && s.counterY == Counter(m.stepsY, m.events, t.units)
          && s.next.negativeX == s.next.negativeX2 == m.negativeX && s.next.negativeY == m.negativeY
          && (0 < t.left && t.pending != [] ==>
                && s.incrementX == m.stepsX * Unit(t.pending[0].level)
                && s.incrementY == m.stepsY * Unit(t.pending[0].level)))
  }

  /** The rings are in step with the tracing of `t`, which began at position (x0, y0). */
  ghost predicate Linked(s: Rings, t: Ideal, remaining: nat, x0: int, y0: int) {
    && Sized(s)
    && Tracing(t, remaining)
    && Fits(t)
    && SegmentsLinked(s, t)
    && BlocksLinked(s, t)
    && CountersLinked(s, t)
    && s.x == x0 + Position(t, X)
    && s.y == y0 + Position(t, Y)
  }

  const NO_PINS := Pins(false, false, false, false, false, false)

  /** As after a reset, whatever the slots hold. */
  predicate Blank(s: Rings) {
    && Sized(s) && s.tail == 0 == s.head && s.prepIndex == 0 == s.execIndex && !s.executing && s.stepCount == 0
    && !s.running && s.next == NO_PINS
  }

  lemma BlankIsLinked(s: Rings)
    requires Blank(s)
    ensures Linked(s, NOT_BEGUN, 0, s.x, s.y)
  {
    InitialIsTracing();
  }

  lemma SlotFollows(k: int)
    requires -1 <= k
    ensures SlotOf(k + 1) == NextBlock(SlotOf(k))
  {
  }

  lemma SlotsDiffer(j: int, k: int)
    requires -1 <= j < k < j + 5
    ensures SlotOf(j) != SlotOf(k)
  {
  }

  lemma ScaledFits(m: Move)
    requires WellFormed(m) && m.events < 0x1000_0000
    ensures Scaled(m) == StepBlock(8 * m.stepsX, 8 * m.stepsY, 8 * m.events, m.negativeX, m.negativeY, m.negativeX)
  {
  }

  lemma {:induction false} TravelPrefix(moves: seq<Move>, more: seq<Move>, axis: Axis, n: nat)
    requires n <= |moves|
    ensures Travel(moves + more, axis, n) == Travel(moves, axis, n)
  {
    if 0 < n {
      TravelPrefix(moves, more, axis, n - 1);
    }
  }

  lemma PositionKept(t: Ideal, m: Move, axis: Axis, remaining: nat)
    requires Ordered(t, remaining) && WellFormed(m)
    ensures var l := WithMove(t, m);
            && (forall k :: 0 <= k < |l.moves| ==> WellFormed(l.moves[k]))
            && Position(l, axis) == Position(t, axis)
  {
    if 0 <= t.exec {
      TravelPrefix(t.moves, [m], axis, t.exec);
    }
  }

  /** How far behind the newest move the first pending piece can be. */
  lemma FrontIsRecent(t: Ideal, remaining: nat)
    requires Tracing(t, remaining) && t.pending != []
    ensures LastSerial(t) - |t.pending| + 1 <= t.pending[0].serial
  {
    InOrder(t, remaining, 0);
  }

  /**
   The slot that a new block is about to overwrite is not referred to by any queued segment, nor by the one
   in execution.
   */
  lemma NewSlotIsFree(s: Rings, t: Ideal, x0: int, y0: int)
    requires Linked(s, t, 0, x0, y0) && SegmentCount(s) <= 4
    ensures forall j :: 0 <= j < SegmentCount(s) ==>
              s.segments[SegmentAt(s.tail, j)].blockIndex != NextBlock(s.prepIndex)
    ensures s.executing ==> s.execIndex != NextBlock(s.prepIndex)
  {
    SlotFollows(|t.moves| - 1);
    if t.pending != [] {
      FrontIsRecent(t, 0);
      InOrder(t, 0, 0);
    }
    forall j | 0 <= j < SegmentCount(s)
      ensures s.segments[SegmentAt(s.tail, j)].blockIndex != NextBlock(s.prepIndex)
    {
      SlotsDiffer(t.pending[j].serial, |t.moves|);
    }
    if s.executing {
      assert s.segments[SegmentAt(s.tail, 0)] == Encoded(t.pending[0]);
    }
  }

  lemma BlocksAfterLoad(s: Rings, t: Ideal, m: Move)
    requires Sized(s) && BlocksLinked(s, t) && Tracing(t, 0) && |t.pending| <= 4
    requires t.moves != [] ==> 0 < t.moves[|t.moves| - 1].events
    ensures BlocksLinked(BlockLoaded(s, m), WithMove(t, m))
  {
    var l, u := BlockLoaded(s, m), WithMove(t, m);
    SlotFollows(|t.moves| - 1);
    forall k | 0 <= k < |u.moves| && |u.moves| - 5 <= k
      ensures l.blocks[SlotOf(k)] == Scaled(u.moves[k])
    {
      if k < |t.moves| {
        SlotsDiffer(k, |t.moves|);
      }
    }
    if t.pending != [] {
      FrontIsRecent(t, 0);
    }
  }

  lemma LastMove(t: Ideal)
    requires Tracing(t, 0)
    ensures t.moves != [] ==> 0 < t.moves[|t.moves| - 1].events
    ensures -1 <= t.exec < |t.moves| && forall k :: 0 <= k < |t.moves| ==> WellFormed(t.moves[k])
  {
    if t.moves != [] {
      assert WellFormed(t.moves[|t.moves| - 1]);
    }
  }

  lemma RestAfterLoad(s: Rings, t: Ideal, m: Move)
    requires Sized(s) && SegmentsLinked(s, t) && Fits(t) && WellFormed(m) && m.events < 0x1000_0000
    requires -1 <= t.exec < |t.moves| && forall k :: 0 <= k < |t.moves| ==> WellFormed(t.moves[k])
    requires CountersLinked(s, t)
    ensures var l, u := BlockLoaded(s, m), WithMove(t, m);
            && Sized(l) && SegmentsLinked(l, u) && Fits(u) && l.x == s.x && l.y == s.y
            && (forall k :: 0 <= k < |u.moves| ==> WellFormed(u.moves[k])) && CountersLinked(l, u)
  {
    hide Counter;
  }

  /** A new block may be loaded whenever the segment ring has room and the last block is cut completely. */
  lemma LoadLinked(s: Rings, t: Ideal, m: Move, x0: int, y0: int)
    requires Linked(s, t, 0, x0, y0) && SegmentCount(s) <= 4 && WellFormed(m) && m.events < 0x1000_0000
    ensures Linked(BlockLoaded(s, m), WithMove(t, m), m.events, x0, y0)
  {
    LoadTraces(t, m);
    PositionKept(t, m, X, 0);
    PositionKept(t, m, Y, 0);
    LastMove(t);
    hide Tracing, BlocksLinked, Position;
    BlocksAfterLoad(s, t, m);
    RestAfterLoad(s, t, m);
  }

  lemma SegmentsAfterPush(s: Rings, t: Ideal, steps: nat, level: Level)
    requires Sized(s) && SegmentsLinked(s, t) && SegmentCount(s) <= 4 && 0 < |t.moves|
    requires s.prepIndex == SlotOf(|t.moves| - 1) && steps * Ticks(level) < 0x1_0000
    ensures SegmentsLinked(SegmentPushed(s, steps, level), WithPiece(t, steps, level))
  {
    var l, u := SegmentPushed(s, steps, level), WithPiece(t, steps, level);
    assert s.head == SegmentAt(s.tail, SegmentCount(s));
    forall j | 0 <= j < |u.pending|
      ensures l.segments[SegmentAt(l.tail, j)] == Encoded(u.pending[j])
    {
      assert j < |t.pending| ==> SegmentAt(s.tail, j) != s.head;
    }
  }

  lemma PushLinked(s: Rings, t: Ideal, remaining: nat, steps: nat, level: Level, x0: int, y0: int)
    requires Linked(s, t, remaining, x0, y0) && SegmentCount(s) <= 4 && 0 < |t.moves|
    requires 0 < steps <= remaining && steps * Ticks(level) < 0x1_0000
    ensures Linked(SegmentPushed(s, steps, level), WithPiece(t, steps, level), remaining - steps, x0, y0)
  {
    hide Accounted, Pulses, Counter;
    PieceTraces(t, remaining, steps, level);
    SegmentsAfterPush(s, t, steps, level);
    if 0 < t.left {
      assert WithPiece(t, steps, level).pending[0] == t.pending[0];
    }
  }

  lemma Shifted(steps: nat, level: Level)
    ensures 8 * steps / Ticks(level) == steps * Unit(level)
  {
  }

  /** The block the first pending piece belongs to is still in its slot. */
  lemma FrontBlock(s: Rings, t: Ideal, remaining: nat, x0: int, y0: int)
    requires Linked(s, t, remaining, x0, y0) && t.pending != []
    ensures var k := t.pending[0].serial;
            && k < |t.moves| && WellFormed(t.moves[k]) && t.moves[k].events < 0x1000_0000
            && s.segments[s.tail] == Encoded(t.pending[0])
            && s.blocks[SlotOf(k)] == Scaled(t.moves[k])
            && Scaled(t.moves[k]) == StepBlock(8 * t.moves[k].stepsX, 8 * t.moves[k].stepsY, 8 * t.moves[k].events,
                                               t.moves[k].negativeX, t.moves[k].negativeY, t.moves[k].negativeX)
  {
    var k := t.pending[0].serial;
    assert s.segments[SegmentAt(s.tail, 0)] == Encoded(t.pending[0]);
    ScaledFits(t.moves[k]);
  }

  lemma CountersAfterBegin(s: Rings, t: Ideal, remaining: nat, x0: int, y0: int)
    requires Linked(s, t, remaining, x0, y0) && t.left == 0 && t.pending != []
    requires Tracing(Begun(t), remaining) && 0 < Begun(t).left
    ensures CountersLinked(SegmentBegun(s), Begun(t))
  {
    var p := t.pending[0];
    var m := t.moves[p.serial];
    FrontBlock(s, t, remaining, x0, y0);
    Shifted(m.stepsX, p.level);
    Shifted(m.stepsY, p.level);
    if p.serial != t.exec {
      MoveIsFinished(t, remaining);
      SlotsDiffer(t.exec, p.serial);
      BlockIsExact(m.stepsX, m.events);
      BlockIsExact(m.stepsY, m.events);
    }
  }

  /** The counters start anew exactly when the segment taken up is of a new block. */
  lemma BeginLinked(s: Rings, t: Ideal, remaining: nat, x0: int, y0: int)
    requires Linked(s, t, remaining, x0, y0) && !s.executing && s.head != s.tail
    ensures t.pending != [] && t.left == 0
    ensures Linked(SegmentBegun(s), Begun(t), remaining, x0, y0) && SegmentBegun(s).executing
    ensures s.execIndex != s.segments[s.tail].blockIndex <==> t.pending[0].serial != t.exec
  {
    WaitsToBegin(s, t, remaining, x0, y0);
    BeginTraces(t, remaining);
    CountersAfterBegin(s, t, remaining, x0, y0);
    hide Tracing, CountersLinked, Position;
    BeginStays(t, remaining, X);
    BeginStays(t, remaining, Y);
    SlotsAfterBegin(s, t);
    BeginsAnew(s, t, remaining, x0, y0);
  }

  lemma WaitsToBegin(s: Rings, t: Ideal, remaining: nat, x0: int, y0: int)
    requires Linked(s, t, remaining, x0, y0) && !s.executing && s.head != s.tail
    ensures t.pending != [] && t.left == 0
  {
    assert |t.pending| == SegmentCount(s);
  }

  lemma SlotsAfterBegin(s: Rings, t: Ideal)
    requires Sized(s) && SegmentsLinked(s, t) && BlocksLinked(s, t) && Fits(t) && t.pending != []
    ensures Sized(SegmentBegun(s)) && SegmentsLinked(SegmentBegun(s), Begun(t))
    ensures BlocksLinked(SegmentBegun(s), Begun(t))
    ensures Fits(Begun(t)) && SegmentBegun(s).x == s.x && SegmentBegun(s).y == s.y && SegmentBegun(s).executing
  {
  }

  lemma BeginsAnew(s: Rings, t: Ideal, remaining: nat, x0: int, y0: int)
    requires Linked(s, t, remaining, x0, y0) && t.left == 0 && t.pending != []
    ensures s.execIndex != s.segments[s.tail].blockIndex <==> t.pending[0].serial != t.exec
  {
    FrontBlock(s, t, remaining, x0, y0);
    if t.pending[0].serial != t.exec {
      MoveIsFinished(t, remaining);
      SlotsDiffer(t.exec, t.pending[0].serial);
    }
  }

  /** One axis: no word overflows, and the tick is the one of the tracer. */
  lemma AxisTraces(steps: nat, events: nat, units: nat, level: Level)
    requires steps <= events && 0 < events < 0x1000_0000
    ensures 0 < Counter(steps, events, units)
    ensures var (counter, pulse) := AxisTick(Counter(steps, events, units), steps * Unit(level), 8 * events);
            && counter == Counter(steps, events, units + Unit(level))
            && Pulses(steps, events, units + Unit(level)) == Pulses(steps, events, units) + if pulse then 1 else 0
  {
    Bresenham.TickTraces(steps, events, units, level);
    NoOverflow(Counter(steps, events, units), steps * Unit(level), 8 * events);
  }

  lemma NoOverflow(counter: nat, increment: nat, eventCount: nat)
    requires counter <= eventCount && increment <= eventCount < 0x8000_0000
    ensures AxisTick(counter, increment, eventCount) == Advance(counter, increment, eventCount)
  {
  }

  lemma StepLinked(s: Rings, t: Ideal, remaining: nat, x0: int, y0: int)
    requires Linked(s, t, remaining, x0, y0) && s.executing
    ensures 0 < t.left && Linked(SegmentStepped(s), Stepped(t), remaining, x0, y0)
  {
    StepOrders(t, remaining);
    StepAccounts(t, remaining);
    AxesAfterStep(s, t, remaining, x0, y0);
    SegmentsAfterStep(s, t);
    FrontBlock(s, t, remaining, x0, y0);
    assert t.left == 1 && 1 < |t.pending| ==> t.pending[0].serial <= t.pending[1].serial by {
      if 1 < |t.pending| {
        InOrder(t, remaining, 0);
      }
    }
  }

  lemma AxesAfterStep(s: Rings, t: Ideal, remaining: nat, x0: int, y0: int)
    requires Linked(s, t, remaining, x0, y0) && s.executing && Ordered(Stepped(t), remaining)
    ensures CountersLinked(SegmentStepped(s), Stepped(t))
    ensures SegmentStepped(s).x == x0 + Position(Stepped(t), X)
    ensures SegmentStepped(s).y == y0 + Position(Stepped(t), Y)
  {
    var p, m := t.pending[0], t.moves[t.exec];
    FrontBlock(s, t, remaining, x0, y0);
    AxisTraces(m.stepsX, m.events, t.units, p.level);
    AxisTraces(m.stepsY, m.events, t.units, p.level);
    LeftFits(t, remaining);
    WordFits(t.left - 1);
    hide AxisTick, Word16, Counter, Pulses, Unit, Ticks, Travel, SegmentsLinked, BlocksLinked, Accounted;
  }

  lemma LeftFits(t: Ideal, remaining: nat)
    requires Ordered(t, remaining) && Fits(t)
    ensures t.left < 0x1_0000
  {
    if 0 < t.left {
      assert t.pending[0].steps * Ticks(t.pending[0].level) < 0x1_0000;
    }
  }

  lemma WordFits(n: nat)
    requires n < 0x1_0000
    ensures Word16(n) == n
  {
  }

  lemma SegmentsAfterStep(s: Rings, t: Ideal)
    requires Sized(s) && SegmentsLinked(s, t) && t.pending != [] && 0 < t.left == s.stepCount && s.stepCount < 0x1_0000
    ensures SegmentsLinked(SegmentStepped(s), Stepped(t))
  {
    if t.left == 1 {
      var l, u := SegmentStepped(s), Stepped(t);
      forall j | 0 <= j < |u.pending|
        ensures l.segments[SegmentAt(l.tail, j)] == Encoded(u.pending[j])
      {
        assert s.segments[SegmentAt(s.tail, j + 1)] == Encoded(t.pending[j + 1]);
      }
    }
  }

  /** Step bits, pins and the timer do not bear on the tracing. */
  lemma PinsLinked(s: Rings, r: Rings, t: Ideal, remaining: nat, x0: int, y0: int)
    requires Linked(s, t, remaining, x0, y0)
    requires r == s.(next := r.next, pins := r.pins, running := r.running)
    requires r.next.negativeX == s.next.negativeX && r.next.negativeX2 == s.next.negativeX2
    requires r.next.negativeY == s.next.negativeY
    ensures Linked(r, t, remaining, x0, y0)
  {
    hide Tracing, Fits, Counter, Position;
  }

  /** The interrupt, working on the rings, does one tick of the tracing. */
  lemma InterruptLinked(s: Rings, t: Ideal, remaining: nat, x0: int, y0: int)
    requires Linked(s, t, remaining, x0, y0)
    ensures Linked(Interrupt(s), Tick(t), remaining, x0, y0)
  {
    var d := s.(pins := s.next);
    PinsLinked(s, d, t, remaining, x0, y0);
    if s.executing {
      StepLinked(d, t, remaining, x0, y0);
    } else if s.head != s.tail {
      BeginLinked(d, t, remaining, x0, y0);
      StepLinked(SegmentBegun(d), Begun(t), remaining, x0, y0);
    } else {
      PinsLinked(s, Interrupt(s), t, remaining, x0, y0);
    }
  }
}
