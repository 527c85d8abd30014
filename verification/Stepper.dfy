/** The stepper as it runs: two rings in place, filled by the main program and emptied by the timer interrupt. */
module StepperRings {
  import opened Blocks
  import opened Bresenham
  import opened Tracer
  import opened SegmentRings

  class Stepper {
    const segmentBuffer: array<Segment>
    const stBlockBuffer: array<StepBlock>
    var segmentTail: SegmentIndex
    var segmentHead: SegmentIndex
    var segmentNextHead: SegmentIndex
    var prepIndex: BlockIndex

    // The segment in execution and the tracer's counters.
    var executing: bool
    var stepCount: nat
    var execIndex: BlockIndex
    var counterX: nat
    var counterY: nat
    var incrementX: nat
    var incrementY: nat

    // The bits for the next tick, those last put out, and whether the timer is on.
    var next: Pins
    var pins: Pins
    var running: bool

    // Machine position in steps.
    var positionX: int
    var positionY: int

    function State(): Rings
      reads this, segmentBuffer, stBlockBuffer
    {
      Rings(segmentBuffer[..], stBlockBuffer[..], segmentTail, segmentHead, prepIndex, executing, stepCount, execIndex,
            counterX, counterY, incrementX, incrementY, next, pins, running, positionX, positionY)
    }

    predicate Valid()
      reads this
    {
      segmentBuffer.Length == 6 && stBlockBuffer.Length == 5 && segmentNextHead == NextSegment(segmentHead)
    }

    constructor ()
      ensures Valid() && Blank(State()) && positionX == 0 == positionY
      ensures fresh(segmentBuffer) && fresh(stBlockBuffer)
    {
      segmentBuffer := new Segment[6](_ => Segment(0, 0, 0));
      stBlockBuffer := new StepBlock[5](_ => StepBlock(0, 0, 0, false, false, false));
      segmentTail, segmentHead, segmentNextHead, prepIndex := 0, 0, 1, 0;
      executing, stepCount, execIndex := false, 0, 0;
      counterX, counterY, incrementX, incrementY := 0, 0, 0, 0;
      next, pins, running := NO_PINS, NO_PINS, false;
      positionX, positionY := 0, 0;
    }

    /** Copies the data of a new block into the next slot. */
    method LoadBlock(m: Move)
      requires Valid()
      modifies this`prepIndex, stBlockBuffer
      ensures Valid() && State() == BlockLoaded(old(State()), m)
    {
      prepIndex := NextBlock(prepIndex);
      stBlockBuffer[prepIndex] :=
        StepBlock(Word32(8 * m.stepsX), Word32(8 * m.stepsY), Word32(8 * m.events), m.negativeX, m.negativeY,
                  m.negativeX);
    }

    /** Switches the timer on. */
    method WakeUp()
      modifies this`next, this`running
      ensures State() == WokenUp(old(State()))
    {
      next := next.(stepX := false, stepY := false);
      running := true;
    }

    /** Hands a segment of the block loaded last to the interrupt. */
    method PushSegment(steps: nat, level: Level)
      requires Valid()
      modifies this`segmentHead, this`segmentNextHead, segmentBuffer
      ensures Valid() && State() == SegmentPushed(old(State()), steps, level)
    {
      segmentBuffer[segmentHead] := Segment(Word16(steps * Ticks(level)), prepIndex, level);
      segmentHead := segmentNextHead;
      segmentNextHead := if segmentNextHead + 1 == 6 then 0 else segmentNextHead + 1;
    }

    /** The timer interrupt. Returns whether it found nothing to do and asked for the cycle to be stopped. */
    method Interrupt() returns (stop: bool)
      requires Valid() && running
      modifies this
      ensures Valid() && State() == SegmentRings.Interrupt(old(State()))
      ensures stop <==> !old(executing) && old(segmentHead) == old(segmentTail)
    {
      pins := next;
      if !executing {
        if segmentHead == segmentTail {
          running := false;
          return true;
        }
        BeginSegment();
      }
      StepSegment();
      return false;
    }

    method BeginSegment()
      requires Valid()
      modifies this`executing, this`stepCount, this`execIndex, this`next
      modifies this`counterX, this`counterY, this`incrementX, this`incrementY
      ensures State() == SegmentBegun(old(State()))
    {
      hide BlockBegun;
      var segment := segmentBuffer[segmentTail];
      BeginBlock();
      executing := true;
      stepCount := segment.ticks;
      SetDirections();
      incrementX := stBlockBuffer[execIndex].stepsX / Ticks(segment.level);
      incrementY := stBlockBuffer[execIndex].stepsY / Ticks(segment.level);
    }

    method SetDirections()
      requires Valid()
      modifies this`next
      ensures var b := stBlockBuffer[execIndex];
              next == old(next).(negativeX := b.negativeX, negativeY := b.negativeY, negativeX2 := b.negativeX2)
    {
      next := next.(negativeX := stBlockBuffer[execIndex].negativeX, negativeY := stBlockBuffer[execIndex].negativeY);
      next := next.(negativeX2 := stBlockBuffer[execIndex].negativeX2);
    }

    /** Where the index of the block data has changed a new block begins, and so do the counters. */
    method BeginBlock()
      requires Valid()
      modifies this`execIndex, this`counterX, this`counterY
      ensures State() == BlockBegun(old(State()))
    {
      var segment := segmentBuffer[segmentTail];
      if execIndex != segment.blockIndex {
        execIndex := segment.blockIndex;
        counterX := stBlockBuffer[execIndex].eventCount / 2;
        counterY := stBlockBuffer[execIndex].eventCount / 2;
      }
    }

    /** Traces one tick, and lets go of the segment when that was its last. */
    method StepSegment()
      requires Valid()
      modifies this`counterX, this`counterY, this`next, this`positionX, this`positionY
      modifies this`stepCount, this`executing, this`segmentTail
      ensures State() == SegmentStepped(old(State()))
    {
      hide AxesStepped;
      StepAxes();
      stepCount := Word16(stepCount - 1);
      executing := stepCount != 0;
      if stepCount == 0 {
        segmentTail := if segmentTail + 1 == 6 then 0 else segmentTail + 1;
      }
    }

    method StepAxes()
      requires Valid()
      modifies this`counterX, this`counterY, this`next, this`positionX, this`positionY
      ensures State() == AxesStepped(old(State()))
    {
      hide AxisTick, Signed;
      next := next.(stepX := false, stepY := false, stepX2 := false);
      StepX();
      StepY();
    }

    method StepX()
      requires Valid() && !next.stepX && !next.stepX2
      modifies this`counterX, this`next, this`positionX
      ensures var b, (counter, pulse) := stBlockBuffer[execIndex], AxisTick(old(counterX), incrementX,
                                                                            stBlockBuffer[execIndex].eventCount);
              && counterX == counter && next == old(next).(stepX := pulse, stepX2 := pulse)
              && positionX == old(positionX) + if pulse then Signed(b.negativeX, 1) else 0
    {
      counterX := Word32(counterX + incrementX);
      if counterX > stBlockBuffer[execIndex].eventCount {
        next := next.(stepX := true);
        next := next.(stepX2 := true);
        counterX := counterX - stBlockBuffer[execIndex].eventCount;
        positionX := if stBlockBuffer[execIndex].negativeX then positionX - 1 else positionX + 1;
      }
    }

    method StepY()
      requires Valid() && !next.stepY
      modifies this`counterY, this`next, this`positionY
      ensures var b, (counter, pulse) := stBlockBuffer[execIndex], AxisTick(old(counterY), incrementY,
                                                                            stBlockBuffer[execIndex].eventCount);
              && counterY == counter && next == old(next).(stepY := pulse)
              && positionY == old(positionY) + if pulse then Signed(b.negativeY, 1) else 0
    {
      counterY := Word32(counterY + incrementY);
      if counterY > stBlockBuffer[execIndex].eventCount {
        next := next.(stepY := true);
        counterY := counterY - stBlockBuffer[execIndex].eventCount;
        positionY := if stBlockBuffer[execIndex].negativeY then positionY - 1 else positionY + 1;
      }
    }

    /** Empties both rings and forgets the block in execution; the position is kept. */
    method Reset()
      requires Valid()
      modifies this`prepIndex, this`segmentTail, this`segmentHead, this`segmentNextHead
      modifies this`executing, this`stepCount, this`execIndex, this`counterX, this`counterY
      modifies this`incrementX, this`incrementY, this`next, this`running
      ensures Valid() && Blank(State())
      ensures positionX == old(positionX) && positionY == old(positionY)
    {
      prepIndex := 0;
      ResetTracer();
      segmentTail, segmentHead, segmentNextHead := 0, 0, 1;
    }

    method ResetTracer()
      modifies this`executing, this`stepCount, this`execIndex, this`counterX, this`counterY
      modifies this`incrementX, this`incrementY, this`next, this`running
      ensures !executing && stepCount == 0 == execIndex && next == NO_PINS && !running
    {
      executing, stepCount, execIndex := false, 0, 0;
      counterX, counterY, incrementX, incrementY := 0, 0, 0, 0;
      next, running := NO_PINS, false;
    }
  }
}
