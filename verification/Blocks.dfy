/**
 The records shared by the planner and the segment generator: the stepping data of one straight move and
 the planner block built around it. Speeds squared, accelerations and millimetres are reals.
 */
module Blocks {

  /** Whole steps of a move along each axis, the dominant count, and the direction bits (set = negative). */
  datatype Move = Move(stepsX: nat, stepsY: nat, stepsZ: nat, events: nat, negativeX: bool, negativeY: bool)

  /** What the planner demands of a move it queues: some axis moves, and `events` is the dominant count. */
  predicate WellFormed(m: Move) {
    && m.stepsX <= m.events
    && m.stepsY <= m.events
    && m.stepsZ <= m.events
    && (m.stepsX == m.events || m.stepsY == m.events || m.stepsZ == m.events)
    && 0 < m.events
  }

  /**
   A planner block. `nominalSpeed` is the value the planner computes from the programmed rate, the axis
   rate limits and the override percentages; the percentages do not change within a run modelled here.
   */
  datatype Block = Block(
    move: Move,
    entrySqr: real,
    maxEntrySqr: real,
    acceleration: real,
    millimeters: real,
    nominalSpeed: real)

  /** Squared speed gained or lost over a distance at constant acceleration. */
  function Gain(a: real, mm: real): real {
    2.0 * a * mm
  }

  /** Largest change of the squared speed over the distance left in the block. */
  function Reach(b: Block): real {
    Gain(b.acceleration, b.millimeters)
  }

  function Sqr(x: real): real {
    x * x
  }

  lemma SqrNonNegative(x: real)
    ensures 0.0 <= Sqr(x)
  {
  }

  function Min(x: real, y: real): (r: real)
    ensures r <= x && r <= y && (r == x || r == y)
  {
    if x < y then x else y
  }

  /** A block with distance left to travel and an admissible entry limit. */
  predicate Plannable(b: Block) {
    0.0 < Reach(b) && 0.0 <= b.maxEntrySqr
  }

  predicate AllPlannable(bs: seq<Block>) {
    forall i :: 0 <= i < |bs| ==> Plannable(bs[i])
  }

  /** What never changes about a slot while its entry speed is replanned. */
  predicate SameButEntry(a: Block, b: Block): (same: bool)
    ensures same ==> Reach(a) == Reach(b) && a.maxEntrySqr == b.maxEntrySqr && a.nominalSpeed == b.nominalSpeed
  {
    a.(entrySqr := b.entrySqr) == b
  }
}
