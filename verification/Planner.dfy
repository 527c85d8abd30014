/** The planner as it runs: block records in a ring that is replanned in place. */
module PlannerRing {
  import opened Blocks
  import opened Ring
  import opened PlanTheory
  import opened PlannerPasses
  import opened PlannerQueue
  import opened RingQueue

  lemma SplitSlots(ring: seq<Block>, p: Index, before: seq<Block>, after: seq<Block>, i: int)
    requires |ring| == |before| == |after| == 16 && Split(ring, p, before, after, i)
    ensures i == -1 ==> Slots(ring, p, 16) == after
    ensures i == 15 ==> Slots(ring, p, 16) == before
  {
  }

  /** Read from slot `p` on, the ring is `after` beyond index `i` and `before` up to it. */
  ghost predicate Split(ring: seq<Block>, p: Index, before: seq<Block>, after: seq<Block>, i: int)
    requires |ring| == |before| == |after| == 16
  {
    forall j :: 0 <= j < 16 ==> ring[At(p, j)] == if i < j then after[j] else before[j]
  }

  lemma SplitStep(ring: seq<Block>, p: Index, before: seq<Block>, after: seq<Block>, i: nat)
    requires |ring| == |before| == |after| == 16 && i < 16
    requires Split(ring, p, before, after, i)
    ensures ring[At(p, i)] == before[i]
    ensures i + 1 < 16 ==> ring[At(p, i + 1)] == after[i + 1]
    ensures Split(ring[At(p, i) := after[i]], p, before, after, i - 1)
  {
  }

  lemma FirstSlot(ring: seq<Block>, p: Index, before: seq<Block>, after: seq<Block>, i: nat)
    requires |ring| == |before| == |after| == 16 && Split(ring, p, before, after, i)
    ensures At(p, 0) == p && ring[p] == before[0]
  {
    assert ring[At(p, 0)] == before[0];
  }

  lemma SplitForward(ring: seq<Block>, p: Index, after: seq<Block>, before: seq<Block>, i: nat)
    requires |ring| == |before| == |after| == 16 && i < 15
    requires Split(ring, p, after, before, i)
    ensures ring[At(p, i)] == after[i] && ring[At(p, i + 1)] == before[i + 1]
    ensures Split(ring[At(p, i + 1) := after[i + 1]], p, after, before, i + 1)
  {
  }

  /** What the reverse pass makes of the ring, told from the slots it starts with. */
  lemma WalkReverse(before: seq<Block>, w: seq<Block>, rest: seq<Block>, base: real)
    requires |before| == 16 && 1 < |w| && w + rest == before[0 := before[0].(entrySqr := base)]
    ensures ReverseOf(before, Reversed(w) + rest, |w|)
    ensures (Reversed(w) + rest)[0] == before[0].(entrySqr := base)
  {
    ReversedIsReverse(w, rest);
    assert (w + rest)[0] == before[0].(entrySqr := base);
    assert forall j :: 0 < j < 16 ==> (w + rest)[j] == before[j];
  }

  lemma SplitWhole(ring: seq<Block>, p: Index, before: seq<Block>, after: seq<Block>)
    requires |ring| == |after| == 16 && before == Slots(ring, p, 16)
    ensures Split(ring, p, before, after, 15)
  {
  }

  lemma SplitFirst(ring: seq<Block>, p: Index, before: seq<Block>, after: seq<Block>)
    requires |ring| == |before| == |after| == 16
    requires Slots(ring, p, 16) == before && after[0] == before[0]
    ensures Split(ring, p, after, before, 0)
  {
    assert forall j :: 0 <= j < 16 ==> Slots(ring, p, 16)[j] == before[j];
  }

  lemma SplitDone(ring: seq<Block>, p: Index, before: seq<Block>, after: seq<Block>, n: nat)
    requires |ring| == |before| == 16 && ForwardOf(before, after, n)
    requires Split(ring, p, after, before, n - 1)
    ensures Slots(ring, p, 16) == after
  {
  }

  lemma SplitStart(ring: seq<Block>, p: Index, before: seq<Block>, after: seq<Block>, n: nat)
    requires |ring| == 16 && ReverseOf(before, after, n) && |before| == 16
    requires Split(ring, p, before, after, 15)
    ensures ring[At(p, n - 1)] == before[n - 1] && ring[p] == before[0]
    ensures Split(ring[At(p, n - 1) := after[n - 1]], p, before, after, n - 2)
  {
    assert At(p, 0) == p;
  }

  lemma SplitTwo(ring: seq<Block>, ring': seq<Block>, p: Index, before: seq<Block>, after: seq<Block>)
    requires |ring| == 16 && ReverseOf(before, after, 2) && |before| == 16
    requires Split(ring, p, before, after, 15)
    requires || ring' == ring[At(p, 1) := after[1]][p := after[0]]
             || (after[0] == before[0] && ring' == ring[At(p, 1) := after[1]])
    ensures Split(ring', p, before, after, -1)
  {
  }

  /** The last two steps at once; when nothing is brought up to date, block 0 stays as it is. */
  lemma SplitEnd(ring: seq<Block>, ring': seq<Block>, p: Index, before: seq<Block>, after: seq<Block>)
    requires |ring| == |before| == |after| == 16
    requires Split(ring, p, before, after, 1)
    requires || ring' == ring[p := after[0]][At(p, 1) := after[1]]
             || (after[0] == before[0] && ring' == ring[At(p, 1) := after[1]])
    ensures Split(ring', p, before, after, -1)
  {
  }

  class Planner {
    const buffer: array<Block>
    var tail: Index
    var head: Index
    var nextHead: Index
    var planned: Index

    // The segment generator's hold on the block being executed: whether the tail block is loaded, the
    // speed reached at the end of the segments cut so far, and whether a partly executed block is to be
    // picked up again instead of loading a new one.
    var loaded: bool
    var recalculate: bool
    var currentSpeed: real

    // Where the last queued move ends, and the nominal speed of that move.
    var position: Steps
    var previousNominal: real

    /** The ring as a value. */
    function State(): RingState
      reads this, buffer
    {
      RingState(buffer[..], tail, head, planned, loaded, recalculate, currentSpeed, previousNominal, position)
    }

    /** Records the speed reached in the block under execution as its entry speed, and lets go of it. */
    method UpdateBlockParameters()
      requires buffer.Length == 16
      modifies this`loaded, this`recalculate, buffer
      ensures !loaded
      ensures recalculate == (old(recalculate) || old(loaded))
      ensures buffer[..] == if old(loaded)
                            then old(buffer[..])[tail := old(buffer[tail]).(entrySqr := Sqr(currentSpeed))]
                            else old(buffer[..])
    {
      if loaded {
        recalculate := true;
        buffer[tail] := buffer[tail].(entrySqr := Sqr(currentSpeed));
        loaded := false;
      }
    }

    /** The block at the cached index, brought up to date if it is the one in execution. */
    function Updated(b: Block): Block
      reads this
    {
      if loaded && planned == tail then b.(entrySqr := Sqr(currentSpeed)) else b
    }

    /** One step of the reverse pass: the highest entry from which `current` can brake to `next`. */
    method BrakeInto(current: Index, next: Index)
      requires buffer.Length == 16
      modifies buffer
      ensures buffer[..] == old(buffer[..])[current := Braked(old(buffer[current]), old(buffer[next]))]
    {
      if buffer[current].entrySqr != buffer[current].maxEntrySqr {
        var entrySqr := buffer[next].entrySqr + Reach(buffer[current]);
        if entrySqr < buffer[current].maxEntrySqr {
          buffer[current] := buffer[current].(entrySqr := entrySqr);
        } else {
          buffer[current] := buffer[current].(entrySqr := buffer[current].maxEntrySqr);
        }
      }
    }

    /** One step of the forward pass: `next` is not entered faster than `current` can accelerate to. */
    method AccelerateInto(
        current: Index, next: Index, ghost p: Index, ghost before: seq<Block>, ghost after: seq<Block>, ghost i: nat)
      requires buffer.Length == 16 && |before| == |after| == 16 && i < 15
      requires current == At(p, i) && next == At(p, i + 1)
      requires 0.0 <= Reach(after[i]) && after[i + 1] == Dialled(after[i], before[i + 1])
      requires Split(buffer[..], p, after, before, i)
      modifies this`planned, buffer
      ensures Split(buffer[..], p, after, before, i + 1)
      ensures planned == if Settles(before[i + 1], after[i + 1]) then next else old(planned)
    {
      ghost var ring := buffer[..];
      SplitForward(ring, p, after, before, i);
      if buffer[current].entrySqr < buffer[next].entrySqr {
        var entrySqr := buffer[current].entrySqr + Reach(buffer[current]);
        if entrySqr < buffer[next].entrySqr {
          buffer[next] := buffer[next].(entrySqr := entrySqr);
          planned := next;
        }
      }
      assert buffer[..] == ring[next := after[i + 1]];
      if buffer[next].entrySqr == buffer[next].maxEntrySqr {
        planned := next;
      }
    }

    /** The loop of the reverse pass: from the second newest block down to the one after the cached index. */
    method BrakeDown(ghost before: seq<Block>, ghost after: seq<Block>)
      requires buffer.Length == 16 == |before|
      requires loaded ==> forall j :: 0 < j < Span(planned, head) ==> At(planned, j) != tail
      requires ReverseOf(before, after, Span(planned, head)) && 2 < Span(planned, head)
      requires after[0] == Updated(before[0])
      requires Split(buffer[..], planned, before, after, Span(planned, head) - 2)
      modifies this`loaded, this`recalculate, buffer
      ensures loaded == (old(loaded) && planned != tail)
      ensures recalculate == (old(recalculate) || (old(loaded) && planned == tail))
      ensures Split(buffer[..], planned, before, after, -1)
    {
      hide Braked, Split;
      ghost var p, n, i := planned, Span(planned, head), Span(planned, head) - 2;
      var current := PrevIndex(head);
      var blockIndex := PrevIndex(current);
      FirstSlot(buffer[..], p, before, after, i);
      assert current == At(p, n - 1);
      WalkDown(p, n - 1);
      while blockIndex != planned
        invariant 0 <= i < n - 1 && blockIndex == At(p, i) && current == At(p, i + 1)
        invariant blockIndex == p <==> i == 0
        invariant loaded == (old(loaded) && (p != tail || 0 < i))
        invariant recalculate == (old(recalculate) || (old(loaded) && p == tail && i == 0))
        invariant Split(buffer[..], p, before, after, if i == 0 then -1 else i)
        decreases i
      {
        ghost var ring := buffer[..];
        WalkDown(p, i);
        SplitStep(ring, p, before, after, i);
        var next := current;
        current := blockIndex;
        blockIndex := PrevIndex(blockIndex);
        if blockIndex == tail {
          UpdateBlockParameters();
        }
        BrakeInto(current, next);
        if i == 1 {
          SplitEnd(ring, buffer[..], p, before, after);
        }
        i := i - 1;
      }
    }

    /** Back-plans the window from the newest block down to the one after the cached index. */
    method ReversePlan(ghost w: seq<Block>, ghost rest: seq<Block>)
      requires buffer.Length == 16 && |w| == Span(planned, head) && 1 < |w|
      requires loaded ==> Dist(tail, planned) < Dist(tail, head)
      requires w + rest == Slots(buffer[..], planned, 16)[0 := Updated(buffer[planned])]
      modifies this`loaded, this`recalculate, buffer
      ensures loaded == (old(loaded) && planned != tail)
      ensures recalculate == (old(recalculate) || (old(loaded) && planned == tail))
      ensures Slots(buffer[..], planned, 16) == Reversed(w) + rest
    {
      ghost var before := Slots(buffer[..], planned, 16);
      assert before[0] == buffer[planned];
      WalkReverse(before, w, rest, Updated(before[0]).entrySqr);
      BrakeAll(before, Reversed(w) + rest);
    }

    /** The same, block by block: `before` are the slots as they are and `after` as they will be. */
    method BrakeAll(ghost before: seq<Block>, ghost after: seq<Block>)
      requires buffer.Length == 16 == |before|
      requires loaded ==> Dist(tail, planned) < Dist(tail, head)
      requires ReverseOf(before, after, Span(planned, head))
      requires after[0] == Updated(before[0])
      requires Slots(buffer[..], planned, 16) == before
      modifies this`loaded, this`recalculate, buffer
      ensures loaded == (old(loaded) && planned != tail)
      ensures recalculate == (old(recalculate) || (old(loaded) && planned == tail))
      ensures Slots(buffer[..], planned, 16) == after
    {
      ghost var p, n, ring := planned, Span(planned, head), buffer[..];
      SplitWhole(ring, p, before, after);
      SplitStart(ring, p, before, after, n);
      var current := PrevIndex(head);
      assert current == At(p, n - 1);
      buffer[current] := buffer[current].(entrySqr := Min(buffer[current].maxEntrySqr, Reach(buffer[current])));
      assert buffer[..] == ring[current := after[n - 1]];
      var blockIndex := PrevIndex(current);
      if blockIndex == planned {
        if blockIndex == tail {
          UpdateBlockParameters();
        }
        SplitTwo(ring, buffer[..], p, before, after);
      } else {
        if loaded {
          TailOutside();
        }
        BrakeDown(before, after);
      }
      SplitSlots(buffer[..], p, before, after, -1);
    }

    /** While the tail is loaded it is either the first block of the window or outside it. */
    lemma TailOutside()
      requires Dist(tail, planned) < Dist(tail, head)
      ensures forall j :: 0 < j < Span(planned, head) ==> At(planned, j) != tail
    {
    }

    /** Dials the window down to what acceleration allows, moving the cached index forward on the way. */
    method ForwardPlan(ghost w: seq<Block>, ghost rest: seq<Block>)
      requires buffer.Length == 16 && |w| == Span(planned, head) && 1 < |w|
      requires forall j :: 0 <= j < |w| ==> 0.0 <= Reach(w[j])
      requires Slots(buffer[..], planned, 16) == Reversed(w) + rest
      modifies this`planned, buffer
      ensures Slots(buffer[..], old(planned), 16) == Replanned(w) + rest
      ensures planned == At(old(planned), Pointer(w))
    {
      ghost var p, before, after := planned, Reversed(w) + rest, Replanned(w) + rest;
      ReplannedIsForward(w, rest);
      LastSettledPrefix(Reversed(w), Replanned(w), rest, |w| - 1);
      SplitFirst(buffer[..], p, before, after);
      AccelerateAll(before, after);
      SplitDone(buffer[..], p, before, after, |w|);
    }

    /** The loop of the forward pass, block by block. */
    method AccelerateAll(ghost before: seq<Block>, ghost after: seq<Block>)
      requires buffer.Length == 16 == |before|
      requires ForwardOf(before, after, Span(planned, head))
      requires Split(buffer[..], planned, after, before, 0)
      modifies this`planned, buffer
      ensures Split(buffer[..], old(planned), after, before, Span(old(planned), head) - 1)
      ensures planned == At(old(planned), LastSettled(before, after, Span(old(planned), head) - 1))
    {
      ghost var p, n := planned, Span(planned, head);
      var next := planned;
      var blockIndex := NextIndex(planned);
      ghost var i := 0;
      WalkUp(p, head, i);
      while blockIndex != head
        invariant i < n && next == At(p, i) && blockIndex == NextIndex(next)
        invariant blockIndex == head <==> i == n - 1
        invariant Split(buffer[..], p, after, before, i)
        invariant planned == At(p, LastSettled(before, after, i))
        decreases n - i
      {
        WalkUp(p, head, i);
        WalkUp(p, head, i + 1);
        var current := next;
        next := blockIndex;
        AccelerateInto(current, next, p, before, after, i);
        i := i + 1;
        blockIndex := NextIndex(blockIndex);
      }
    }

    /** Replans the ring in place, from the cached index on. */
    method Recalculate()
      requires buffer.Length == 16 && Replannable(State())
      modifies this`planned, this`loaded, this`recalculate, buffer
      ensures Consistent(State()) && QueueOf(State()) == ReplannedQueue(old(State()))
    {
      ghost var s := State();
      ghost var w, rest := Walk(s)[..WindowLength(s)], Walk(s)[WindowLength(s)..];
      WalkFacts(s, w, rest);
      RecalculateRing(w, rest);
      ReplansQueue(s, State(), w, rest);
    }

    /** The same, said of the slots: `w` is the window to walk and `rest` the remainder of the ring. */
    method RecalculateRing(ghost w: seq<Block>, ghost rest: seq<Block>)
      requires buffer.Length == 16
      requires |w| == WindowLength(State()) && w + rest == Walk(State())
      requires forall j :: 0 <= j < |w| ==> 0.0 <= Reach(w[j])
      requires loaded ==> PlannedInRange(State())
      modifies this`planned, this`loaded, this`recalculate, buffer
      ensures Replans(old(State()), State(), w, rest)
    {
      if PrevIndex(head) == planned {
        return;
      }
      ReversePlan(w, rest);
      ForwardPlan(w, rest);
    }

    // -------------------------------------------------------------------------------------------
    // The operations of the planner

    predicate Valid()
      reads this, buffer
    {
      buffer.Length == 16 && nextHead == NextIndex(head) && Consistent(State())
    }

    ghost function Contents(): (q: Queue)
      reads this, buffer
      requires Valid()
    {
      QueueOf(State())
    }

    constructor ()
      ensures Valid() && fresh(buffer)
      ensures Contents() == Queue([], 0, false, false, 0.0, 0.0, Steps(0, 0, 0))
    {
      buffer := new Block[16](_ => Block(Move(0, 0, 0, 0, false, false), 0.0, 0.0, 0.0, 0.0, 0.0));
      tail, head, nextHead, planned := 0, 0, 1, 0;
      loaded, recalculate, currentSpeed := false, false, 0.0;
      position, previousNominal := Steps(0, 0, 0), 0.0;
    }

    /**
     Queues a straight move to `target`, in machine millimetres. The caller checks that the ring has room. A
     move of no whole step is not queued and leaves the planner as it was.
     */
    method BufferLine(target: Point, stepsPerMm: Point, g: Geometry) returns (queued: bool)
      requires Valid() && tail != nextHead
      requires StepsOf(target, stepsPerMm) != position ==> Physical(g) && 0.0 <= previousNominal
      modifies this, buffer
      ensures Valid()
      ensures Contents() == Appended(old(Contents()), StepsOf(target, stepsPerMm), g)
      ensures queued <==> StepsOf(target, stepsPerMm) != old(position)
    {
      var targetSteps := StepsOf(target, stepsPerMm);
      queued := QueueMove(targetSteps, g);
    }

    /** The same, for a target in whole steps. */
    method QueueMove(target: Steps, g: Geometry) returns (queued: bool)
      requires Valid() && tail != nextHead
      requires target != position ==> Physical(g) && 0.0 <= previousNominal
      modifies this, buffer
      ensures Valid()
      ensures Contents() == Appended(old(Contents()), target, g)
      ensures queued <==> target != old(position)
    {
      var move := MoveBetween(position, target);
      if move.events == 0 {
        ClearSlot(move);
        queued := false;
      } else {
        QueueBlock(move, target, g);
        queued := true;
      }
    }

    method QueueBlock(move: Move, target: Steps, g: Geometry)
      requires Valid() && tail != nextHead && target != position && move == MoveBetween(position, target)
      requires Physical(g) && 0.0 <= previousNominal
      modifies this, buffer
      ensures Valid()
      ensures Contents() == Appended(old(Contents()), target, g)
    {
      hide Filled, Consistent, Replannable, ReplannedQueue, Recalculated, Pushed, Count, MoveBetween;
      RoomLeft();
      FilledQueue(State(), target, g);
      Fill(move, target, g);
      Recalculate();
    }

    lemma RoomLeft()
      requires Valid() && tail != nextHead
      ensures Consistent(State()) && Count(State()) < 15
    {
    }

    /** The free slot holds what was begun of a move that turned out to have no steps. */
    method ClearSlot(move: Move)
      requires Valid()
      modifies buffer
      ensures Valid() && Contents() == old(Contents())
    {
      ghost var s := State();
      buffer[head] := Block(move, 0.0, 0.0, 0.0, 0.0, 0.0);
      FreeSlot(s, buffer[head]);
      assert State() == s.(slots := s.slots[s.head := buffer[head]]);
    }

    /** Writes the record of a new move into the free slot and moves the head on. */
    method Fill(move: Move, target: Steps, g: Geometry)
      requires Valid() && tail != nextHead && move == MoveBetween(position, target)
      modifies this`head, this`nextHead, this`previousNominal, this`position, buffer
      ensures State() == Filled(old(State()), target, g) && nextHead == NextIndex(head)
    {
      ghost var s := State();
      var junctionSqr := if head == tail then 0.0 else g.junctionSqr;
      var maxEntrySqr := MaxEntrySqr(g, previousNominal, junctionSqr);
      buffer[head] := Block(move, 0.0, maxEntrySqr, g.acceleration, g.millimeters, g.nominalSpeed);
      assert buffer[..] == s.slots[s.head := NewBlock(QueueOf(s), move, g)];
      previousNominal := g.nominalSpeed;
      position := target;
      head := nextHead;
      nextHead := NextIndex(head);
    }

    /** The segment generator writes to the block in execution and keeps its own record of it. */
    method WriteTail(entrySqr: real, millimeters: real, speed: real, takenUp: bool)
      requires Valid() && head != tail && 0.0 <= entrySqr && 0.0 <= Gain(buffer[tail].acceleration, millimeters)
      requires loaded || takenUp
      modifies this`currentSpeed, this`loaded, this`recalculate, buffer
      ensures Valid()
      ensures var q := old(Contents());
              Contents() == q.(blocks := q.blocks[0 := q.blocks[0].(entrySqr := entrySqr, millimeters := millimeters)],
                               speed := speed, loaded := true, recalculate := if takenUp then false else q.recalculate)
    {
      ghost var s := State();
      TailWrittenQueue(s, entrySqr, millimeters);
      buffer[tail] := buffer[tail].(entrySqr := entrySqr, millimeters := millimeters);
      currentSpeed := speed;
      loaded := true;
      if takenUp {
        recalculate := false;
      }
      assert State()
             == TailWritten(s, entrySqr, millimeters).(speed := speed, loaded := true, recalculate := recalculate);
    }

    /** Removes the oldest block, which the segment generator has finished and let go of. */
    method DiscardCurrentBlock()
      requires Valid()
      modifies this`tail, this`planned, this`loaded
      ensures Valid()
      ensures Contents() == Discarded(old(Contents()))
    {
      ghost var s := State();
      if head != tail {
        loaded := false;
        var blockIndex := NextIndex(tail);
        if tail == planned {
          planned := blockIndex;
        }
        tail := blockIndex;
        WithoutFirstQueue(s, State());
      }
    }

    /** Replans everything from the speed reached, for a partly executed block at the tail. */
    method CycleReinitialize()
      requires Valid()
      modifies this`planned, this`loaded, this`recalculate, buffer
      ensures Valid()
      ensures Contents() == Reinitialized(old(Contents()))
    {
      ghost var s := State();
      UpdateBlockParameters();
      planned := tail;
      assert State() == Released(s).(planned := s.tail);
      RestartedQueue(s);
      Recalculate();
    }

    /** Squared speed at which the block in execution is left: the entry of the next one, or a stop. */
    method ExecBlockExitSpeedSqr() returns (r: real)
      requires Valid() && head != tail
      ensures r == if 1 < |Contents().blocks| then Contents().blocks[1].entrySqr else 0.0
    {
      var blockIndex := NextIndex(tail);
      if blockIndex == head {
        return 0.0;
      }
      assert blockIndex == At(tail, 1);
      return buffer[blockIndex].entrySqr;
    }

    method CheckFullBuffer() returns (full: bool)
      requires Valid()
      ensures full <==> |Contents().blocks| == 15
    {
      full := tail == nextHead;
    }

    method BlockBufferAvailable() returns (n: nat)
      requires Valid()
      ensures n + |Contents().blocks| == 15
    {
      if head >= tail {
        n := 15 - (head - tail);
      } else {
        n := tail - head - 1;
      }
    }

    method Reset()
      requires Valid()
      modifies this
      ensures Valid()
      ensures Contents() == Queue([], 0, false, false, 0.0, 0.0, Steps(0, 0, 0))
    {
      loaded, recalculate, currentSpeed := false, false, 0.0;
      position, previousNominal := Steps(0, 0, 0), 0.0;
      tail, head, nextHead, planned := 0, 0, 1, 0;
    }
  }
}
