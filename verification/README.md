# Verified model of the Grbl motion controller

This project models the motion controller in `grbl/` and proves what it promises: a plan that is the fastest
one the machine can follow, steps that are never lost, an arc that stays on its circle, a homing cycle that
squares the gantry, a pen that is up after a reset.

The motion pipeline is the core. Targets become blocks in a ring of sixteen (`Planner.dfy`), which is replanned
in place from a cached index. The segment generator (`Preparation.dfy`) follows the velocity profile of the
oldest block and cuts it into segments, which the timer interrupt (`Stepper.dfy`) traces from a ring of six,
with block data in a ring of five. The classes are written as the program is, with indices and slots changed in
place. Each of their methods is proved against a function on values; the theory is proved about those functions.

| files | what they hold |
|---|---|
| `Blocks`, `PlanTheory`, `PlannerPasses` | what an optimal plan is, independently of how it is computed; the two passes and why they compute it |
| `PlannerQueue`, `Lookahead`, `Junctions` | the planner's operations on a queue, what they keep, what the cached index is worth, and that blocks keep the limits they were queued with |
| `Ring`, `RingQueue`, `Planner` | the ring, why its replan is that of the queue, and the planner class |
| `LineGeometry`, `LinePlanner` | length, acceleration, rate and junction speed of a move, and the way from a target to a queued block |
| `Profile`, `Segment`, `Fastest` | the velocity profile, the loop that cuts a segment off it, and why neither could be faster |
| `Execution`, `Holds`, `Joints`, `Preparation` | runs of the main program, with holds and resumes; what moves appended in a hold do to the plan; how the speed goes on from block to block; the segment generator class |
| `Bresenham`, `Tracer` | the line tracer and the account of its work |
| `SegmentRings`, `Stepper` | the two rings as values and as a class with the interrupt |
| `Machine`, `Pipeline`, `SoftLimits` | the whole pipeline under every interleaving, and what holds over its runs |
| `Emission`, `DualMotor` | the pins over whole runs: what each motor is driven with, and where the two X motors part |
| `Protocol`, `Supervision` | the run-state machine, that it drives the segment generator only through events it can take, and both together over runs |
| `Homing`, `Arc`, `PenReset`, `Numbers` | the homing cycle, arcs, resets and the pen, number printing and reading |
| `Gcode`, `Words`, `Lines` | the parser, what its words mean, and where its lines lead |
| `Program` | the parser and the pipeline together |
| `Reals`, `Results` | shared facts of arithmetic and result types |

Speeds, lengths and accelerations are reals. The square root is a parameter of which only
`root(x) >= 0 && root(x) * root(x) == x` is asked. Step counts are integers; where the program's words could
overflow (32-bit counters, 16-bit segment lengths) the model computes in words of that width, and runs are those in
which a move has fewer than 2^28 step events and a segment, counted in ticks, fits 16 bits.

## What the code does differently from what one would expect

Some properties one would expect do not hold of the code. The model keeps the code as it is, and the lemmas named
here say when exactly the property holds.

- The cached index is not always between tail and head: replanning an empty ring can leave it anywhere
  (`EmptyReplanStrays`, with the condition under which it stays in `EmptyReplanStays`). It is in range whenever something
  is queued, and the first move brings it back (`ReplansQueue`).
- The distance left in a block can increase inside the loop that cuts a segment, because the time of the pass that
  ends an acceleration is measured from the start of the segment (`PassTakes`). It does exactly when the segment has to go on past the
  end of the acceleration and that end is more than two segment times away (`SegmentGoesBack`, with an example in
  `GoesBackFromRest`). A segment as a whole always moves forward (`SegmentEnds`).
- The second motor of the X axis can be driven a step further than the first. Switching the timer on clears the step bits
  of the axes but not that of the second motor, so a step left there when the timer went off is put out twice
  (`SecondMotorStrays`). The motors stay together exactly as long as none is left over (`TogetherExactly`), and one is left
  over exactly by blocks whose last tick is at least half a step along X (`LeftOverThroughout`). A reset clears it as well.
- Moves may be appended while a feed hold is still braking, when the motion is slower than the plan took it to be. A
  move then leaves the greatest plan exactly when the cached index is at the oldest block or the second block can
  still be reached at its planned speed, and it lowers no speed exactly when the index is past the oldest block or
  that is so (`AppendsThroughout`, with a run that shows it in `HeldMoveStrays`). A plan that is not the greatest one
  asks for a speed the motion cannot reach. The queue can be stopped at all times (`CanStopThroughout`), and the stop at
  the end of the hold makes the plan the greatest again (`ReinitializedOptimal`).
- If all segments run out in a hold between two blocks, before the next block is taken up, the stop keeps that block waiting
  at the speed it was planned to be entered at, and the resume begins it at that speed. In all other cases a block is begun
  at exactly the speed the last one was left at (`BlocksJoin`).
- A reset from an interrupt can return before the pen is up, if it interrupts a reset of the main program
  (`InterruptedReset`, with a run in which that happens in `ResetMidway`).
- After a probe has cancelled a motion, a jog begun from idle makes no step, and its block is run as a cycle later: it
  is not prepared at all (`JogAfterProbe`), or, if the contact came late, it is prepared to stop where it starts
  (`JogAfterLateContact`). A jog makes steps exactly when step control was left neither in a hold nor at the end of one
  (`JogIsPrepared`).
- A jog without axis words is accepted and goes to machine zero (`JogWithoutAxes`, `UnnamedAxisInJog`).
- The constant of the arc's sine is a rounded sixth, so that small turns lengthen the radius a little, by no more than
  5e-8 of its square (`FactorBounds`): those up to 0.00069 do and those from 0.0007 on do not (`SmallTurnsLengthen`, with
  the exact condition in `TurnLengthens`).

## Model

| member | source | states |
|---|---|---|
| `PlanTheory.PlanIsGreatest` | grbl/planner.c:63-125 | A feasible plan (entry speeds within their junction limits, adjacent ones reachable at the block's acceleration, ending in a stop) exists exactly when the first block can brake in time; the plan defined here is then feasible and pointwise the greatest of all feasible ones |
| `PlanTheory.PinnedIsFinal` | grbl/planner.c:177-193 | Nothing appended later changes an entry speed at or before a pinned block (at its limit, or reached at full acceleration from a pinned one), and the block stays pinned |
| `PlanTheory.UnpinnedCanGain` | grbl/planner.c:177-193 | The converse: where no later block is pinned either, appending any block that need not be entered at rest raises the speed, so the cached index is not placed too early |
| `PlanTheory.AppendingRaisesPlan` | grbl/planner.c:134-167 | Appending blocks never lowers a planned entry speed |
| `PlanTheory.PlanShift` | grbl/planner.c:137-147 | Restarting the plan at any block from its own planned speed gives the same speeds after it |
| `PlanTheory.AdvancingKeepsPlan` | grbl/stepper.c:1055-1079 | Executing part of the first block, without gaining more than its acceleration allows and still able to reach the next entry speed, leaves every later planned speed as it was |
| `PlannerPasses.ReversePassIsBraking` | grbl/planner.c:134-167 | The reverse pass, with its skip of blocks already at their maximum, computes the braking limits of the window whenever no speed exceeds them |
| `PlannerPasses.ForwardPassIsPlan` | grbl/planner.c:169-195 | The two passes together compute the greatest plan of the window |
| `PlannerPasses.PointerIsPinned` | grbl/planner.c:177-193 | The index the forward pass leaves behind is at a pinned block |
| `PlannerQueue.AppendedKeeps` | grbl/planner.c:398-472 | A new move keeps every limit, and keeps the whole plan the greatest one although it is replanned only from the cached index on |
| `PlannerQueue.DiscardedKeeps` | grbl/planner.c:215-223 | Discarding the finished block leaves the greatest plan of the rest, entered at the speed planned for it |
| `PlannerQueue.ReinitializedOptimal` | grbl/planner.c:516-522 | Replanning from the speed reached restores the greatest plan from any sound state, a feed hold in progress included |
| `PlannerQueue.RecalculatedExactly` | grbl/planner.c:126-196 | A replan from the cached index on leaves the greatest plan exactly when the entry speeds up to the index were those of the greatest plan already |
| `PlannerQueue.MoveBetween` | grbl/planner.c:351-381 | Along each axis the step count is the distance and the direction bit its sign, the event count is the dominant one, and no move is queued exactly when the two positions coincide |
| `PlannerQueue.Lround` | grbl/planner.c:369 | A target is rounded to the nearest step, halves away from zero |
| `PlannerQueue.MaxEntryBounds` | grbl/planner.c:274-280 | The entry limit of a block is the least of its own nominal speed, that of the block before, and the junction limit |
| `PlannerQueue.QueuedForMove` | grbl/planner.c:383-462 | The block queued for a move has its acceleration, length and nominal speed; it is entered from rest into an empty queue, and otherwise its entry limit is at most the junction limit and both nominal speeds squared, and one of them |
| `Junctions.JunctionsAreObeyed` | grbl/planner.c:429-459 | In every run, holds and replans included, each queued block is that of the move it was queued for, and none but the one begun is planned to be entered faster than the junction of that move and both nominal speeds allow; moves are followed from the events alone |
| `Junctions.BlocksAreEnteredWithinLimits` | grbl/stepper.c:732-742 | And the speed at which a block is really begun is within the limit it was queued with, in a hold as well |
| `Joints.BlocksJoin` | grbl/stepper.c:732-742 | In every run, holds and replans included, a block is begun at exactly the speed the last one was left at, unless and only if a stop was reported in a hold between the two, before the next was taken up, and it waited at another speed |
| `Joints.HoldingExactly` | grbl/stepper.c:988-1081 | In every run a hold is under way exactly from its request to the stop; only a cut that comes to rest in a hold blocks the preparation, and it stays blocked exactly until the resume or another hold |
| `Joints.HoldOnlyBrakes` | grbl/stepper.c:763-775 | From its request to the stop a hold only brakes: neither loads, segments nor moves appended raise the speed |
| `Lookahead.CachedReplanIsFullReplan` | grbl/planner.c:126-196 | Replanning from the cached index gives every entry speed a replan from the tail would give |
| `Lookahead.PlannedIsFinal` | grbl/planner.c:177-193 | Over any number of further moves no entry speed is lowered, none at or before the cached index changes, and the index does not move back |
| `Lookahead.EmptyReplanStrays` | grbl/planner.c:126-132 | A replan of an empty ring, as on an override change while idle, walks all sixteen slots and leaves the cached index at slot 15 with tail and head at 0: the index is only in range while something is queued |
| `Lookahead.EmptyReplanStays` | grbl/planner.c:169-195 | In general a replan of an empty ring begun at the tail leaves the cached index there exactly when it settles no later slot |
| `RingQueue.ReplansQueue` | grbl/planner.c:126-196 | Whatever index arithmetic and wrap-around, replanning the ring replans the queue it holds; a stray cached index on an empty ring does no harm and the first move brings it back |
| `PlannerRing.Planner.AccelerateAll` | grbl/planner.c:171-195 | The in-place loop of the forward pass dials each block down to what the one before can reach and ends with the cached index at the last block it settled |
| `PlannerRing.Planner.BrakeDown` | grbl/planner.c:149-166 | The in-place loop of the reverse pass back-plans the window and lets go of the block in execution exactly when it starts there |
| `PlannerRing.Planner.Recalculate` | grbl/planner.c:126-196 | The replan in the ring is the replan of the queue, for every position of tail, head and cached index |
| `PlannerRing.Planner.BufferLine` | grbl/planner.c:315-472 | Queues a move rounded to steps and replans, as told of the queue by `QueuedForMove` and `AppendedKeeps`; a move of no steps leaves the planner as it was |
| `PlannerRing.Planner.DiscardCurrentBlock` | grbl/planner.c:215-223 | Removes the oldest block, pushing the cached index along if it was there |
| `PlannerRing.Planner.CycleReinitialize` | grbl/planner.c:516-522 | Replans everything from the speed reached in the partly executed block |
| `PlannerRing.Planner.ExecBlockExitSpeedSqr` | grbl/planner.c:241-246 | The exit speed is the entry speed of the next block, or zero for the last |
| `PlannerRing.Planner.CheckFullBuffer` | grbl/planner.c:250-254 | The ring is full exactly with fifteen blocks |
| `PlannerRing.Planner.BlockBufferAvailable` | grbl/planner.c:498-502 | Free and queued blocks add up to fifteen, across the wrap |
| `LinePlanner.MotionPlanner.BufferLine` | grbl/planner.c:315-472 | The whole of it, from a target in millimetres: the block queued has the length and direction of the way between the positions in whole steps, the acceleration and rates its axes allow in that direction, and the corner speed between it and the last move queued, whose direction is kept; a move of no steps leaves that direction in force |
| `LineGeometry.LimitValueByAxisMaximum` | grbl/nuts_bolts.c:180-190 | The greatest value of which no axis gets more than its maximum along the direction |
| `LineGeometry.ConvertDeltaVectorToUnitVector` | grbl/nuts_bolts.c:164-177 | The vector becomes one of length 1 in the same direction; its length is returned |
| `LineGeometry.JunctionSpeedSqr` | grbl/planner.c:429-451 | The junction limit is zero for a reversal, unlimited for a straight line, and otherwise that of a circle past the corner at the set deviation with the greatest acceleration the axes allow along the unit vector towards its centre; it is never negative |
| `LineGeometry.JunctionIsUnique` | grbl/planner.c:429-451 | The two directions, the accelerations and the deviation leave one junction limit only: the description above determines it |
| `LineGeometry.Geometry` | grbl/planner.c:383-452 | What the planner computes of a move meets all that its plan relies on: positive length and acceleration, a nominal speed no lower than the minimum feed rate, with acceleration and rapid rate the greatest that overload no axis |
| `LineGeometry.OverridesApply` | grbl/planner.c:259-269 | The feed override bears on programmed rates and on none that is fixed, the rapid override on rapid moves alone; at a hundred percent a rate the axes allow is kept |
| `Profile.NormalOnProfile` | grbl/stepper.c:776-843 | For every entry and exit the plan can ask for, the profile passes through the entry speed, its ramps are in order within the block, its peak is within the nominal speed, and it heads for exactly the planned exit speed |
| `Fastest.NormalIsFastest` | grbl/stepper.c:776-843 | At every distance from the end of the block the squared speed of the profile is the least of what can be gained from the entry, what can be lost before the exit, and the nominal speed squared: no profile for the same task is faster anywhere |
| `Fastest.SegmentIsFastest` | grbl/stepper.c:871-953 | Although a pass may run backward, a segment begun where the profile is that fast ends where it is |
| `Fastest.RunsAreFastest` | grbl/stepper.c:871-1053 | In every run, outside of holds, the motion is at the end of every segment exactly as fast as the planned speeds, the acceleration and the nominal speed of the block allow, the exit speed being the one planned at that moment |
| `Profile.HoldOnProfile` | grbl/stepper.c:763-775 | A feed hold brakes at the block's acceleration to a stop inside the block exactly when its speed allows that, and through the whole block otherwise |
| `Segment.PassKeepsProfile` | grbl/stepper.c:880-953 | No pass of the segment loop leaves the profile: on every ramp squared speed and distance stay in the ratio of the acceleration, and the end of the profile is never passed |
| `Segment.AtEnd` | grbl/stepper.c:936-939 | At the end of its profile the motion has exactly the exit speed |
| `Segment.CanReachExit` | grbl/stepper.c:880-953 | Anywhere on the profile the motion can still brake to the exit speed and still reach it |
| `Segment.FullPass` | grbl/stepper.c:941-952 | A full pass that does not end its ramp uses up one of the passes the ramp can still take, which is why the loop ends |
| `Segment.FollowProfile` | grbl/stepper.c:871-953 | The do-while loop ends, by ramp stage, then short passes, then full passes left, at the value of the recursive definition |
| `Segment.SegmentEnds` | grbl/stepper.c:871-953 | A segment ends on the profile, at least the required distance further or at the end of the profile at the exit speed, having gained no more than the acceleration allows and without exceeding the speeds of the profile |
| `Segment.PassTakes` | grbl/stepper.c:880-940 | The time counted for a pass is that in which its distance is covered at the mean of the speeds at its ends, except exactly for the pass that ends the acceleration when it is not the first of its segment |
| `Segment.TimeGiven` | grbl/stepper.c:941-952 | After any pass but that one the next is given some time, and at most a segment time |
| `Segment.FollowLasts` | grbl/stepper.c:941-952 | A segment that does not complete the profile is counted to last a full segment time at least |
| `Segment.SegmentGoesBack` | grbl/stepper.c:871-953 | Some pass of a segment ends further from the end of the block than it began exactly when the segment begins on the acceleration, has to go on past its end, and the distance to that end takes longer than two segment times at the mean of the peak speed and the speed after the last full pass |
| `Segment.NoneGoesBack` | grbl/stepper.c:908-953 | Once the acceleration is over and the loop owes no negative time, no further pass of the segment goes back |
| `Segment.RunsBackward` | grbl/stepper.c:899-907 | The pass that ends the acceleration leaves the loop owing a negative time exactly under that condition on its own speeds, and a pass made with that time does go back |
| `Segment.SlowStartProfile` | grbl/stepper.c:776-843 | A millimetre from rest to rest at 29.4 mm/min and 36000 mm/min^2 is laid out as the profile used by the example below |
| `Segment.GoesBackFromRest` | grbl/stepper.c:899-907 | On that profile the first segment goes back with 100 steps to the millimetre, and does not with 125 |
| `Execution.PlanIsOptimalThroughout` | grbl/stepper.c:600-608 | At every point of every run of moves, loads, segments, holds, stops and resumes, outside a hold: the plan is feasible and the greatest, the cached index is in range, and the exit speed of a loaded block squared is the entry speed of the next |
| `Execution.CanStopThroughout` | grbl/stepper.c:732-775 | At every point of every run, holds included, the queue can be brought to a stop, and the highest speed that the profile of the block in execution still holds is within its nominal speed |
| `Execution.BlocksAreCutExactly` | grbl/stepper.c:988-1081 | Across replans, holds and resumes the segments cut from a block add up to its step count when it is discarded; every segment pushed has at least one step, and a cut without one happens only where a hold has come to rest, changing no block |
| `Execution.NextKeeps` | grbl/protocol.c:257-402 | Every event that is possible is also well defined and keeps the invariant of the main program |
| `Execution.SegmentSteps` | grbl/stepper.c:988-1004 | A segment has no step only at the end of a feed hold short of one; the last segment of a block takes all its remaining steps |
| `Holds.AppendsThroughout` | grbl/planner.c:126-196 | At every point of every run, holds included, a move appended leaves the greatest plan, and one the motion can follow at all, exactly when the cached index is at the oldest block or the second block can be reached at the speed planned for it; it lowers no entry speed exactly when the index is past the oldest block or that is so |
| `Holds.HeldMoveStrays` | grbl/planner.c:126-196 | A run from start-up in which two moves are queued and a hold is cut to its end in the first: whatever move is appended then leaves a plan that is not the greatest, and that the motion cannot follow |
| `Holds.HoldEndsAtRest` | grbl/stepper.c:988-1004 | At every point of every run at which a hold has been cut to its end, the motion is at rest |
| `Preparation.SegmentGenerator.LayOutNormal` | grbl/stepper.c:776-843 | The branches that set the profile's fields in place compute the profile that `NormalOnProfile` and `NormalIsFastest` are about |
| `Preparation.SegmentGenerator.LayOutHold` | grbl/stepper.c:763-775 | The same for a feed hold |
| `Preparation.SegmentGenerator.LoadBlock` | grbl/stepper.c:678-844 | Takes up a partly executed block, or copies a new block's stepping data into the next slot, and lays out its profile |
| `Preparation.SegmentGenerator.CutSegment` | grbl/stepper.c:851-1081 | Cuts a segment, pushes it, and lets go of the block or stops the preparation at the end of the profile |
| `Preparation.SegmentGenerator.PrepBuffer` | grbl/stepper.c:670-1084 | The loop that fills the segment ring ends, and does exactly a sequence of loads and cuts until the ring is full, the queue is empty or a hold is cut to its stop |
| `Preparation.FilledIsFull` | grbl/stepper.c:670-690 | When it returns the ring holds five segments, or a hold has been cut to its stop, or nothing is left to cut |
| `Preparation.SegmentGenerator.FeedHold` | grbl/protocol.c:262-266 | A hold lets go of the block in execution so that it is profiled anew |
| `Preparation.SegmentGenerator.CycleStop` | grbl/protocol.c:376-381 | The stop at the end of a hold replans from the speed reached |
| `Bresenham.TickTraces` | grbl/stepper.c:414-442 | One tick at any smoothing level takes an axis from the pulses due to the pulses due, with the counter in range |
| `Tracer.FinishedIsExact` | grbl/stepper.c:368-384 | However a block was split into segments and levels: when the next one comes up each axis has made exactly its steps and its counter is back at half |
| `Bresenham.WithinHalfAStep` | grbl/stepper.c:414-442 | At every tick each axis is within half a step of the ideal line |
| `Tracer.BoundaryIsWhole` | grbl/stepper.c:465-470 | Between two segments whole step events of the block are done, those of the segments executed so far, and the dominant axis has made exactly that many steps |
| `Tracer.TickTraces` | grbl/stepper.c:352-470 | Every tick keeps the account: of every move, the units done, pending and not yet cut add up to its steps |
| `Tracer.MoveIsFinished` | grbl/stepper.c:366-374 | When a segment of the next block comes up, the block before has been executed to its last unit |
| `Tracer.DrainedIsExact` | grbl/stepper.c:392-401 | When nothing is left to execute, every axis has made exactly the signed steps of all blocks |
| `Tracer.BetweenTheEnds` | grbl/stepper.c:420-442 | The position never leaves the interval between the ends of the block being traced |
| `SegmentRings.LoadLinked` | grbl/stepper.c:697-723 | Loading a block into the next of five slots keeps the rings in step with the tracing |
| `SegmentRings.PushLinked` | grbl/stepper.c:851-1053 | Pushing a segment into the next of six slots keeps the rings in step with the tracing |
| `SegmentRings.BeginLinked` | grbl/stepper.c:352-385 | A segment is taken up in order, and the counters start anew exactly when it is of a new block |
| `SegmentRings.InterruptLinked` | grbl/stepper.c:319-477 | Working on the rings in words of its width, the interrupt does one tick of the tracing: slots, counters and positions; the pins are the matter of `Emission` |
| `SegmentRings.NewSlotIsFree` | grbl/stepper.c:697-703 | The slot a new block is written to is not referred to by any queued segment nor by the one in execution |
| `StepperRings.Stepper.Interrupt` | grbl/stepper.c:319-477 | The interrupt in place: puts out the bits worked out before, takes up a segment if none is in execution, traces one tick, or switches itself off and asks for the cycle to stop |
| `Emission.InterruptPulses` | grbl/stepper.c:323-340 | In each tick the bits worked out the last time are put out; an axis gets its step bit exactly when its position changes, its direction bit says which way, and both motors of the X axis get the same |
| `Emission.PinsDriveTheAxes` | grbl/stepper.c:323-340 | In every run the steps put out for a motor, signed by the direction bits put out with them, and the one still to be put out add up to the change of position of its axis; for the second X motor together with what is repeated at a wake-up |
| `Emission.PulsesInTime` | grbl/stepper.c:414-442 | At every instant of every run each motor has got, since its block was begun, exactly the pulses due, with the direction bit of the block in force |
| `Emission.BlocksGetTheirPulses` | grbl/stepper.c:414-442 | However a block is split into segments and levels, when it is finished each motor has got exactly the steps of its axis |
| `DualMotor.TogetherExactly` | grbl/stepper.c:224-246 | Both X motors have been driven equally far up to an instant of a run exactly when the timer was never switched on with a step bit of the second motor left over |
| `DualMotor.LeftOverThroughout` | grbl/stepper.c:414-427 | In every run the tick that finishes a block leaves such a bit exactly when four times the event count is within the steps along X times the units of the last segment's level: at the two coarse levels only, for moves that lie enough along X |
| `DualMotor.SecondMotorStrays` | grbl/stepper.c:230-231 | A run of a move of one step along X, whatever its geometry, after which the timer is switched on again: the X axis and its first motor have made one step, the second motor two |
| `StepperRings.Stepper.LoadBlock` | grbl/stepper.c:697-723 | Copies a block's scaled data into the next slot |
| `StepperRings.Stepper.PushSegment` | grbl/stepper.c:851-1053 | Writes a segment and moves the head |
| `StepperRings.Stepper.Reset` | grbl/stepper.c:537-550 | Both rings are empty and nothing is in execution; the position is kept |
| `Machine.NextCoherent` | grbl/stepper.c:670-1084 | Every event of main program or interrupt keeps planner, preparation, rings and tracing coherent; only a new line adds to the moves of the run |
| `Pipeline.StepsAreConserved` | grbl/planner.c:454-462 | At every instant of every run the planner's position is the machine's plus the signed steps owed by the block in execution and all blocks after it |
| `Pipeline.DrainsToTheLastTarget` | grbl/planner.c:366-372 | Whenever all queues are empty the machine is at the last target rounded once: rounding never accumulates |
| `Pipeline.TracksTheLine` | grbl/stepper.c:414-442 | At every instant of every run each axis is within half a step of its line and each counter within the event count |
| `Pipeline.BoundariesAreWhole` | grbl/stepper.c:465-470 | The same over runs: whenever no segment is in execution, the machine is along the dominant axis exactly as many steps from the start of the block as the segments executed so far hold |
| `Pipeline.BlocksAreTracedExactly` | grbl/stepper.c:368-384 | The same for whole blocks: whenever the next segment is of another block, or all queues have drained, both axes are exactly at the end of the block and both counters back at half |
| `Pipeline.SlotsAreNeverReused` | grbl/stepper.c:697-703 | In every interleaving, a newly loaded block overwrites no data still referred to |
| `SoftLimits.TargetInArea` | grbl/system.c:334-359 | A target the travel check lets pass is, in steps, within the working area |
| `SoftLimits.GateIsTheBox` | grbl/motion_control.c:32-42 | With soft limits exactly the targets in the box pass; outside of it a jog is refused and any other line raises the alarm |
| `SoftLimits.StaysInArea` | grbl/motion_control.c:32-68 | In every run of the pipeline to which only targets inside the area are given, from a start in it, every position is in the area |
| `Program.NothingLeavesArea` | grbl/motion_control.c:32-42 | With soft limits on and a start in the area, whatever lines, arcs and jogs are parsed, every position of every run is in the area: a target outside it is turned away at the gateway |
| `Protocol.Controller.ExecRtSystem` | grbl/protocol.c:257-402 | The flags of a call change the state, the suspend flags and step control in the order hold, start, stop; the actions returned are those the caller performs |
| `Protocol.CallLeadsTo` | grbl/protocol.c:257-402 | For every combination of flags, from any state that runs can reach: which of the five states a call leads to, when it stops, resumes or drops the queue, and when a hold is complete afterwards; a soft limit leads to idle from a hold as well, and a start to a cycle exactly if something is queued |
| `Protocol.StartAfterCancel` | grbl/protocol.c:343-358 | A start while a cancelled motion is still noted leads to idle, whatever is queued |
| `Protocol.CancelIsNoted` | grbl/protocol.c:257-282 | A motion cancel is noted as such unless it meets a jog, which it ends as a jog cancel with a hold |
| `Protocol.NextInOrder` | grbl/protocol.c:257-402 | Outside probing and soft limits, the system at rest or in motion has no hold pending, and in the hold state a hold is either under way or complete |
| `Protocol.CallsAreEnabled` | grbl/protocol.c:262-381 | In any one call the protocol drives the segment generator only through events it can take, a resume comes only from rest or a complete hold and never along with a hold request, and both agree afterwards on whether a hold is under way |
| `Supervision.HoldsThroughout` | grbl/protocol.c:257-402 | At every point of every run of calls, jogs and their cancels, moves, loads and cuts, outside probing and soft limits: both agree on the hold and its end; at rest, in a cycle and in a jog there is no hold and the plan is the greatest; in the hold state the hold is under way or complete, and then everything has been replanned |
| `Protocol.HoldThenResume` | grbl/protocol.c:284-381 | A feed hold in a cycle is taken at once, a start before it is complete is not, and after the stop a start resumes the cycle |
| `Protocol.JogAfterProbe` | grbl/protocol.c:382-400 | After a motion cancelled by a probe, a jog is not prepared; its block is run by the next cycle start instead |
| `Protocol.JogAfterLateContact` | grbl/motion_control.c:311-318 | If the contact comes when the whole motion has been cut, step control is left in a hold: a jog begun from idle then makes no step, falls back to idle, and its block is run by the next cycle start |
| `Protocol.JogIsPrepared` | grbl/jog.c:40-46 | A jog begun from idle with a move to be entered at rest has a segment with steps cut for it exactly when step control was left neither in a hold nor at the end of one, as is always so outside probing |
| `Homing.Approach` | grbl/limits.c:270-316 | An approach ends well exactly after the first poll by which every motor was stopped by its own switch, with no flag pending and the skew never beyond its limit; otherwise the failure is named |
| `Homing.PullOff` | grbl/limits.c:321-346 | A pull-off ends well only with the motion finished, no reset, door or alarm, and all switches of the axes, both sides of X, released |
| `Homing.GoHome` | grbl/limits.c:171-369 | If the cycle ends without alarm every approach and every pull-off went well and the last phase was a pull-off; after an alarm the phase it was in failed in just that way, and a cycle still pending is in a phase that has not ended |
| `Homing.CycleEndsOneWay` | grbl/limits.c:171-369 | What is read at the polls determines the outcome of the cycle, its failure and the number of polls of each phase |
| `Homing.FailuresAreNamed` | grbl/limits.c:321-346 | Which failure a phase ends with, if several apply: not found before all in an approach, a switch still engaged in a pull-off, then door, reset, and an alarm set before |
| `Homing.HomedMeans` | grbl/limits.c:171-369 | A homed machine went through a search and the locating approaches, after each of which there was a pull-off: in every approach both motors of the X axis met their own switches and the Y axis its own, and every pull-off released all of them |
| `Homing.PhasesLeadToTheSwitch` | grbl/limits.c:240-251 | Every approach leads toward the end the switch is at, the search across the whole travel from any place in it and a locating one past the pull-off before it; every pull-off leads away from it |
| `Homing.HomedOffItsSwitch` | grbl/limits.c:379-392 | The position set is one pull-off from the end the switch is at, zero at the negative end and the travel at the positive one, rounded once, on the side to which the last pull-off led; at the negative end it is the very number of steps of that pull-off, at the positive one at most a step from it |
| `Homing.FailDistanceBounds` | grbl/limits.c:177-185 | The skew limit is five percent of the other axis where that is within the bounds, and the nearer bound otherwise |
| `Homing.HomedInArea` | grbl/limits.c:379-392 | A homed machine is set to a position within its working area, for either end |
| `Arc.ThirdOrder` | grbl/motion_control.c:149-152 | The factored form of the turn is the third order approximation of cosine and sine |
| `Arc.FactorIs` | grbl/motion_control.c:149-152 | One approximate turn by an angle multiplies the squared radius by exactly 1 - angle^4/12 + angle^6/36 with a true sixth, and by that plus an exact error term with any constant in its place |
| `Arc.FactorBounds` | grbl/motion_control.c:149-152 | With the rounded constant of the program the factor for an angle up to 1 stays within 1 - angle^4/12 and 1 + 5e-8 |
| `Arc.TurnLengthens` | grbl/motion_control.c:149-152 | A turn with the rounded constant keeps the radius from growing exactly when the angle is zero or what the rounding adds is within a twelfth of its square |
| `Arc.SmallTurnsLengthen` | grbl/motion_control.c:149-152 | So every turn by an angle up to 0.00069 lengthens the radius, and none by an angle from 0.0007 to 1 does |
| `Arc.TurnLines` | grbl/motion_control.c:160-187 | Every thirteenth point is put right exactly and the others are turned from the one before; all stay within 1 - angle^4 and 1 + 1.2e-6 of the squared radius, evenly spaced along the axis |
| `Arc.ArcsTurnTheirWay` | grbl/motion_control.c:160-176 | Each point lies from the one before it counterclockwise for a positive angle and clockwise for a negative one, by less than a quarter of a turn; a point put right is at its exact rotation from the start |
| `Arc.ArcLines` | grbl/motion_control.c:112-191 | An arc issues one line per segment and at least one, the last exactly to the target, unless aborted |
| `PenReset.PenStaysUp` | grbl/spindle_control.c:50-65 | From the end of a reset that set the flag until the next initialisation the pen is up, in every interleaving of pen commands, resets and limit interrupts, through the critical alarm as well |
| `PenReset.InterruptedReset` | grbl/motion_control.c:375-383 | A reset from an interrupt returns with the pen down in exactly one case: the main program is inside its own reset between flag and lift, and then lifts it next |
| `PenReset.ResetMidway` | grbl/motion_control.c:375-383 | A run in which that case occurs: the main program has set the flag with the pen down when the interrupt comes |
| `PenReset.DownByCommand` | grbl/spindle_control.c:50-72 | In every interleaving, once the pen has been lifted it is only ever down because of a command given while neither a reset nor an abort was pending, since which nothing has lifted it |
| `PenReset.DownExactly` | grbl/spindle_control.c:50-72 | And the converse: such a command does put it down, and down it stays until an initialisation, a completed reset or a command that is heeded lifts it |
| `Numbers.PrintFloat` | grbl/print.c:133-168 | The digits put into the buffer backwards come out as the printed form |
| `Numbers.PrintedInDigits` | grbl/print.c:133-168 | Whatever the number and the decimals: what is printed is the sign of a negative number, at least one digit, and with decimals the point and exactly that many digits, which together stand for the magnitude in units of the last decimal, rounded half away from zero |
| `Numbers.ReadFloat` | grbl/nuts_bolts.c:35-108 | The loop over the characters reads the number, its exponent applied in steps |
| `Numbers.NumbersAreRead` | grbl/nuts_bolts.c:35-108 | A number with either sign or none, with or without a point, is read at its sign with its first eight digits, each at its own decimal place, and those after them as zeros; reading stops right behind it, and without a digit nothing is read |
| `Numbers.RoundTrip` | grbl/nuts_bolts.c:35-108 | Reading back anything printed with at most eight digits uses all of it and gives the number rounded half away from zero, within half a unit of its last decimal |
| `Gcode.AcceptedHasNoZ` | grbl/gcode.c:329-334 | A line with a Z word or another plane than XY is not accepted |
| `Gcode.CollectWords` | grbl/gcode.c:117-348 | The loop over the words collects them into a block, refusing repeated words, modal groups and conflicting claims to the axis words: what the words mean is stated by `LineIsUnderstood` and `LineIsReadIf` |
| `Words.LineIsUnderstood` | grbl/gcode.c:117-348 | In a line that is read no two words are of one modal group, of one letter, or claim the axis words both; each word is taken at its meaning, G0 to M30 and the values; and what no word speaks of is as it was before |
| `Words.LineIsReadIf` | grbl/gcode.c:117-348 | A line is read exactly if all its words are known, their values are such as they may have, and no two of them conflict |
| `Lines.ModesRead` | grbl/gcode.c:176-222 | A line is in inches after G20 and in millimetres after G21, incremental after G91 and absolute after G90, in the system that G54 to G59 select, and otherwise in the modes in force |
| `Lines.LineLeads` | grbl/gcode.c:597-634 | An accepted line with axis words leads where they say, in the units of the line: with G53 to the value in machine coordinates, with G91 by the value from where the parser stood, with G90 to the value plus the selected system and the G92 offset; an axis not named stays, and straight moves plan just that target |
| `Lines.JogLeads` | grbl/gcode.c:862-883 | The same of a jog, which leaves all modes as they are |
| `Lines.JogsHaveFewCommands` | grbl/gcode.c:868-872 | A jog that is read passes exactly if its only commands are G20, G21, G53, G90 and G91 |
| `Lines.MoveIsAcceptedIf` | grbl/gcode.c:637-705 | Feed, spindle and arc geometry apart, a line that uses axis words for a motion at most is refused in three cases: G53 with anything but a straight move, axis words without a motion, and an arc or a probe without axis words |
| `Lines.ModesStay` | grbl/gcode.c:988-1065 | Modes set by a line stay for those after it; jogs and refused lines set none, and the end of a program restores all but the units |
| `Lines.SystemStaysInForce` | grbl/gcode.c:1012-1035 | Over all lines the coordinate system in force is the stored one that is selected |
| `Lines.OffsetIsSet` | grbl/gcode.c:574-588 | After a line with G92 the position reads as programmed, in the units of the line |
| `Lines.CoordinatesAreStored` | grbl/gcode.c:530-573 | G10 stores in the system its P word counts from 1, or in that of the line: with L2 the values, with L20 those that make the position read as programmed; nothing else is stored and nothing moves |
| `Lines.HomeIsReached` | grbl/gcode.c:1037-1044 | G28 and G30 go to the stored home, along the axes named or both, by way of the target of the line if there is one |
| `Lines.HomeIsStoredBy` | grbl/gcode.c:1045-1050 | G28.1 and G30.1 store where the parser stands before any motion of the line, and nothing else |
| `Lines.OffsetIsCleared` | grbl/gcode.c:1055-1058 | After G92.1 no offset is in force |
| `Lines.ProbeLeads` | grbl/gcode.c:1062-1100 | A probe is planned to its target and leaves the parser there, at the machine position or where it was, as it ends |
| `Gcode.Parser.ExecuteLine` | grbl/gcode.c:66-1145 | A line updates the parser's state field by field in the order of execution, or not at all, and returns the lines planned: the function of words and modes that `LineLeads` and `ModesStay` are about |
| `Program.NothingMovesZ` | grbl/gcode.c:597-634 | Over every run of parser and pipeline together, whatever lines, offsets and stored positions there are: the parser stays at Z zero without tool offset in the XY plane, the planner at Z zero, and no block ever queued has a step along Z, so that even a tracer with the Z counter that this build leaves out would make no pulse along Z |
| `Gcode.FlatTargetPlansNoZ` | grbl/planner.c:369-377 | Such a target moves the planner no step along Z |
| `Gcode.OffsetsTakeEffect` | grbl/gcode.c:561-588 | G92 and G10 L20 make the current position read as programmed, also when the line changes units or coordinate system |
| `Gcode.AbsoluteMoveReadsBack` | grbl/gcode.c:603-612 | An absolute move ends where the programmed value is read |
| `Gcode.IncrementalMovesCancel` | grbl/gcode.c:610-612 | Incremental moves by opposite amounts cancel, whatever offsets are in force |
| `Gcode.StoredHomeIsReached` | grbl/gcode.c:1037-1050 | A position stored with G28.1 or G30.1 is returned to exactly, whatever lines come in between that do not store it anew; with axis words the move goes by way of the programmed target, and an axis not named stays where it is |
| `Gcode.UnnamedAxisStays` | grbl/gcode.c:598-602 | A straight move leaves an axis it does not name where it is |
| `Gcode.UnnamedAxisInJog` | grbl/gcode.c:598-602 | In a jog that holds exactly when some axis is named or the axis is at zero |
| `Gcode.JogWithoutAxes` | grbl/gcode.c:870-883 | A jog with nothing but a feed rate is accepted and goes to machine zero |

## Left out

- Feed and rapid override changes during a run, and the ramp that brakes from above the nominal speed: the nominal speed
  of a block is fixed when it is queued.
- System motions other than their outcome (homing, parking), probing inside the pipeline, and jog cancel: they use the
  free slot at the head or end in a reset, and a run here is what happens between resets.
- Timer periods and the choice of the smoothing level from them: the level of each segment is arbitrary, and the time of a
  segment is only counted in the loop that cuts it.
- Rounding of floating-point numbers and the accuracy of cosine and sine: the exact rotations of an arc are only asked to
  keep lengths, and the number of segments and the angle of an arc are inputs.
- Overflow of the 8-bit digit counters of the number reader: a line has at most 80 characters.
- Inversion of pins, pulse widths, the lock masks of homing inside the interrupt, and the Z counter of builds that
  have one: `Program` shows that it would never pulse.
- PinsDriveTheAxes: takes the timer to be switched on only while it is off, as at the start of a cycle or a jog.
- PrepBuffer: models the interrupt as acting between two calls; inside a call it could only make room for more segments,
  and the runs of `Machine` interleave it freely.
- GoHome: models what is read at each poll of the loop, and not the motion that is under way meanwhile; delays and feed
  rates of the phases are not modelled.
- ArcLines: models the abort as a number of lines after which it is seen.
- CollectWords: models the words that bear on positions, offsets, units and the plane; feed, spindle and arc geometry
  checks can refuse a line but are not spelled out, and stored positions can always be read.
- ExecuteLine: takes the points of an arc, how a probe ends and any refusal by a check that is not modelled as inputs.
- PenStaysUp: models the steps of the main program that touch the pen, the reset flag, the critical alarm and the abort
  request; report counters and the servo timer are not modelled.
- ExecRtSystem: models a call without reset, alarm, safety door or spindle stop override, and leaves performing the actions
  to the caller.
- Serial communication, reports, settings, coolant, dwell and the suspend loop.
