/**
 What the stepper interrupt is to do, told without its rings: it works through a queue of pieces cut from a
 sequence of moves, one tick at a time. Moves are numbered in the order they were loaded.
 */
module Tracer {
  import opened Blocks
  import opened Bresenham

  datatype Axis = X | Y

  function StepsOn(m: Move, axis: Axis): nat {
    if axis == X then m.stepsX else m.stepsY
  }

  predicate Negative(m: Move, axis: Axis) {
    if axis == X then m.negativeX else m.negativeY
  }

  function Signed(negative: bool, n: int): int {
    if negative then -n else n
  }

  /** A segment: whole steps of one move, executed at one smoothing level. */
  datatype Piece = Piece(serial: nat, steps: nat, level: Level)

  /**
   `exec` is the number of the move being traced, -1 before the first, and `units` how many eighths of its
   step events are done. `left` counts the ticks left of the first pending piece, 0 before it is begun.
   */
  datatype Ideal = Ideal(moves: seq<Move>, pending: seq<Piece>, exec: int, units: nat, left: nat)

  const NOT_BEGUN := Ideal([], [], -1, 0, 0)

  function WithMove(t: Ideal, m: Move): Ideal {
    t.(moves := t.moves + [m])
  }

  /** A piece of the newest move. */
  function WithPiece(t: Ideal, steps: nat, level: Level): Ideal
    requires 0 < |t.moves|
  {
    t.(pending := t.pending + [Piece(|t.moves| - 1, steps, level)])
  }

  /** The first pending piece is begun; when it belongs to another move, tracing starts anew. */
  function Begun(t: Ideal): Ideal
    requires 0 < |t.pending|
  {
    var p := t.pending[0];
    t.(exec := p.serial, units := if p.serial == t.exec then t.units else 0, left := p.steps * Ticks(p.level))
  }

  /** One tick of the piece in execution. */
  function Stepped(t: Ideal): Ideal
    requires 0 < |t.pending| && 0 < t.left
  {
    t.(units := t.units + Unit(t.pending[0].level), left := t.left - 1,
       pending := if t.left == 1 then t.pending[1..] else t.pending)
  }

  /** One tick of the interrupt: a piece is begun if there is none in execution. */
  function Tick(t: Ideal): Ideal {
    if t.pending == [] then t
    else
      var b := if t.left == 0 then Begun(t) else t;
      if b.left == 0 then b else Stepped(b)
  }

  // ---------------------------------------------------------------------------------------------
  // Accounting in units

  /** Units of move `k` in a queue of pieces. */
  function Queued(ps: seq<Piece>, k: int): nat {
    if ps == [] then 0 else (if ps[0].serial == k then 8 * ps[0].steps else 0) + Queued(ps[1..], k)
  }

  /** Units of move `k` still to be executed from the pending pieces. */
  function Owed(t: Ideal, k: int): nat {
    if t.left == 0 || t.pending == [] then Queued(t.pending, k)
    else (if t.pending[0].serial == k then t.left * Unit(t.pending[0].level) else 0) + Queued(t.pending[1..], k)
  }

  /** Units of move `k` already executed. */
  function Done(t: Ideal, k: nat): nat
    requires k < |t.moves|
  {
    if k < t.exec then 8 * t.moves[k].events else if k == t.exec then t.units else 0
  }

  /** Units of move `k` that have not been cut yet; `remaining` steps of the newest move have not. */
  function Uncut(t: Ideal, remaining: nat, k: nat): nat
    requires k < |t.moves|
  {
    if k == |t.moves| - 1 then 8 * remaining else 0
  }

  /** The units of every move are executed, pending or uncut. */
  ghost predicate Accounted(t: Ideal, remaining: nat) {
    forall k :: 0 <= k < |t.moves| ==> Done(t, k) + Owed(t, k) + Uncut(t, remaining, k) == 8 * t.moves[k].events
  }

  function LastSerial(t: Ideal): int {
    if t.pending == [] then t.exec else t.pending[|t.pending| - 1].serial
  }

  ghost predicate Consecutive(ps: seq<Piece>) {
    forall i, j :: 0 <= i && j == i + 1 && j < |ps| ==> ps[i].serial <= ps[j].serial <= ps[i].serial + 1
  }

  /** Pieces are pending in the order of their moves, none of which is left out. */
  ghost predicate Ordered(t: Ideal, remaining: nat) {
    && -1 <= t.exec < |t.moves|
    && (forall k :: 0 <= k < |t.moves| ==> WellFormed(t.moves[k]))
    && (forall j :: 0 <= j < |t.pending| ==> 0 < t.pending[j].steps && t.exec <= t.pending[j].serial < |t.moves|)
    && (t.pending != [] ==> t.pending[0].serial <= t.exec + 1)
    && Consecutive(t.pending)
    && (0 < t.left ==>
          && t.pending != []
          && t.pending[0].serial == t.exec
          && t.left <= t.pending[0].steps * Ticks(t.pending[0].level))
    && (t.moves == [] ==> remaining == 0)
    && (t.moves != [] ==> remaining <= t.moves[|t.moves| - 1].events)
    && LastSerial(t)
       == if t.moves != [] && remaining == t.moves[|t.moves| - 1].events then |t.moves| - 2 else |t.moves| - 1
  }

  ghost predicate Tracing(t: Ideal, remaining: nat) {
    Ordered(t, remaining) && Accounted(t, remaining)
  }

  lemma {:induction false} QueuedAppend(ps: seq<Piece>, p: Piece, k: int)
    ensures Queued(ps + [p], k) == Queued(ps, k) + if p.serial == k then 8 * p.steps else 0
  {
    if ps != [] {
      assert (ps + [p])[1..] == ps[1..] + [p];
      QueuedAppend(ps[1..], p, k);
    }
  }

  lemma {:induction false} QueuedNone(ps: seq<Piece>, k: int)
    requires forall j :: 0 <= j < |ps| ==> ps[j].serial != k
    ensures Queued(ps, k) == 0
  {
    if ps != [] {
      QueuedNone(ps[1..], k);
    }
  }

  lemma InitialIsTracing()
    ensures Tracing(NOT_BEGUN, 0)
  {
  }

  /** A new move may be loaded once the last one has been cut completely. */
  lemma LoadTraces(t: Ideal, m: Move)
    requires Tracing(t, 0) && WellFormed(m)
    ensures Tracing(WithMove(t, m), m.events)
  {
    var l := WithMove(t, m);
    forall k | 0 <= k < |l.moves|
      ensures Done(l, k) + Owed(l, k) + Uncut(l, m.events, k) == 8 * l.moves[k].events
    {
      if k < |t.moves| {
        assert Owed(l, k) == Owed(t, k);
      } else {
        QueuedNone(t.pending, k);
        if t.pending != [] {
          QueuedNone(t.pending[1..], k);
        }
      }
    }
  }

  lemma OwedAppend(t: Ideal, steps: nat, level: Level, k: int)
    requires 0 < |t.moves| && (0 < t.left ==> t.pending != [])
    ensures Owed(WithPiece(t, steps, level), k) == Owed(t, k) + if k == |t.moves| - 1 then 8 * steps else 0
  {
    var p := Piece(|t.moves| - 1, steps, level);
    QueuedAppend(t.pending, p, k);
    if t.pending != [] {
      assert (t.pending + [p])[1..] == t.pending[1..] + [p];
      QueuedAppend(t.pending[1..], p, k);
    }
  }

  lemma PieceTraces(t: Ideal, remaining: nat, steps: nat, level: Level)
    requires Tracing(t, remaining) && 0 < |t.moves| && 0 < steps <= remaining
    ensures Tracing(WithPiece(t, steps, level), remaining - steps)
  {
    var w := WithPiece(t, steps, level);
    forall k | 0 <= k < |w.moves|
      ensures Done(w, k) + Owed(w, k) + Uncut(w, remaining - steps, k) == 8 * w.moves[k].events
    {
      OwedAppend(t, steps, level, k);
      assert Done(t, k) + Owed(t, k) + Uncut(t, remaining, k) == 8 * t.moves[k].events;
    }
  }

  /** When a piece of the next move comes up, the move before it has been executed to the last unit. */
  lemma MoveIsFinished(t: Ideal, remaining: nat)
    requires Tracing(t, remaining) && t.left == 0 && t.pending != [] && t.pending[0].serial != t.exec
    ensures t.pending[0].serial == t.exec + 1
    ensures 0 <= t.exec ==> t.units == 8 * t.moves[t.exec].events
  {
    InOrder(t, remaining, 0);
    if 0 <= t.exec {
      QueuedNone(t.pending, t.exec);
      assert Done(t, t.exec) + Owed(t, t.exec) + Uncut(t, remaining, t.exec) == 8 * t.moves[t.exec].events;
    }
  }

  /** However it was split into segments and levels: each axis has made its steps, and each counter is back at half. */
  lemma FinishedIsExact(t: Ideal, remaining: nat, axis: Axis)
    requires Tracing(t, remaining) && t.left == 0 && t.pending != [] && 0 <= t.exec != t.pending[0].serial
    ensures var m := t.moves[t.exec];
            && WellFormed(m)
            && Pulses(StepsOn(m, axis), m.events, t.units) == StepsOn(m, axis)
            && Counter(StepsOn(m, axis), m.events, t.units) == 4 * m.events
  {
    var m := t.moves[t.exec];
    MoveIsFinished(t, remaining);
    BlockIsExact(StepsOn(m, axis), m.events);
  }

  /** Whole steps of move `k` in a queue of pieces. */
  function StepsPending(ps: seq<Piece>, k: int): nat {
    if ps == [] then 0 else (if ps[0].serial == k then ps[0].steps else 0) + StepsPending(ps[1..], k)
  }

  lemma {:induction false} QueuedIsWhole(ps: seq<Piece>, k: int)
    ensures Queued(ps, k) == 8 * StepsPending(ps, k)
  {
    if ps != [] {
      QueuedIsWhole(ps[1..], k);
    }
  }

  /** Step events of the move being traced that were cut into pieces which have been executed. */
  function StepsExecuted(t: Ideal, remaining: nat): int
    requires 0 <= t.exec < |t.moves|
  {
    t.moves[t.exec].events - StepsPending(t.pending, t.exec) - (if t.exec == |t.moves| - 1 then remaining else 0)
  }

  /** Between two pieces exactly the step events of those executed are done, and the dominant axis has made them. */
  lemma BoundaryIsWhole(t: Ideal, remaining: nat)
    requires Tracing(t, remaining) && t.left == 0 && 0 <= t.exec
    ensures t.units == 8 * StepsExecuted(t, remaining)
    ensures WellFormed(t.moves[t.exec])
    ensures forall axis: Axis :: StepsOn(t.moves[t.exec], axis) == t.moves[t.exec].events ==>
              Pulses(StepsOn(t.moves[t.exec], axis), t.moves[t.exec].events, t.units) == StepsExecuted(t, remaining)
  {
    assert Done(t, t.exec) + Owed(t, t.exec) + Uncut(t, remaining, t.exec) == 8 * t.moves[t.exec].events;
    QueuedIsWhole(t.pending, t.exec);
    DominantAxis(t.moves[t.exec].events, StepsExecuted(t, remaining));
  }

  lemma {:induction false} InOrder(t: Ideal, remaining: nat, j: nat)
    requires Ordered(t, remaining) && j < |t.pending|
    ensures forall i :: j <= i < |t.pending| ==> t.pending[j].serial <= t.pending[i].serial
    ensures t.pending[j].serial + |t.pending| - 1 - j >= t.pending[|t.pending| - 1].serial
    decreases |t.pending| - j
  {
    if j + 1 < |t.pending| {
      InOrder(t, remaining, j + 1);
      var i := j + 1;
      assert t.pending[j].serial <= t.pending[i].serial <= t.pending[j].serial + 1;
    }
  }

  lemma BeginTraces(t: Ideal, remaining: nat)
    requires Tracing(t, remaining) && t.left == 0 && t.pending != []
    ensures Tracing(Begun(t), remaining) && 0 < Begun(t).left
  {
    var b, p := Begun(t), t.pending[0];
    TicksAreSteps(p.level);
    if p.serial != t.exec {
      MoveIsFinished(t, remaining);
    }
    InOrder(t, remaining, 0);
    PieceTicks(p);
    forall k | 0 <= k < |b.moves|
      ensures Done(b, k) + Owed(b, k) + Uncut(b, remaining, k) == 8 * b.moves[k].events
    {
      assert Done(t, k) + Owed(t, k) + Uncut(t, remaining, k) == 8 * t.moves[k].events;
      assert Owed(b, k) == Queued(t.pending, k);
    }
  }

  lemma PieceTicks(p: Piece)
    requires 0 < p.steps
    ensures 0 < p.steps * Ticks(p.level) && p.steps * Ticks(p.level) * Unit(p.level) == 8 * p.steps
  {
    TicksAreSteps(p.level);
    assert p.steps * Ticks(p.level) * Unit(p.level) == p.steps * (Ticks(p.level) * Unit(p.level));
  }

  lemma StepAccounts(t: Ideal, remaining: nat)
    requires Tracing(t, remaining) && 0 < t.left
    ensures Accounted(Stepped(t), remaining)
  {
    var s, p := Stepped(t), t.pending[0];
    assert t.left * Unit(p.level) == (t.left - 1) * Unit(p.level) + Unit(p.level);
    forall k | 0 <= k < |s.moves|
      ensures Done(s, k) + Owed(s, k) + Uncut(s, remaining, k) == 8 * s.moves[k].events
    {
      assert Done(t, k) + Owed(t, k) + Uncut(t, remaining, k) == 8 * t.moves[k].events;
    }
  }

  lemma StepOrders(t: Ideal, remaining: nat)
    requires Ordered(t, remaining) && 0 < t.left
    ensures Ordered(Stepped(t), remaining)
  {
    if t.left == 1 {
      assert Consecutive(t.pending[1..]);
      forall j | 0 <= j < |t.pending[1..]|
        ensures 0 < t.pending[1..][j].steps && t.exec <= t.pending[1..][j].serial < |t.moves|
      {
        assert 0 < t.pending[j + 1].steps && t.exec <= t.pending[j + 1].serial < |t.moves|;
      }
      if 1 < |t.pending| {
        var i, j := 0, 1;
        assert t.pending[i].serial <= t.pending[j].serial <= t.pending[i].serial + 1;
      }
    }
  }

  lemma TickTraces(t: Ideal, remaining: nat)
    requires Tracing(t, remaining)
    ensures Tracing(Tick(t), remaining)
  {
    if t.pending != [] {
      if t.left == 0 {
        BeginTraces(t, remaining);
      }
      var b := if t.left == 0 then Begun(t) else t;
      StepOrders(b, remaining);
      StepAccounts(b, remaining);
    }
  }

  // ---------------------------------------------------------------------------------------------
  // Position

  /** Signed steps of the first `n` moves along an axis. */
  function Travel(moves: seq<Move>, axis: Axis, n: nat): int
    requires n <= |moves|
  {
    if n == 0 then 0
    else Travel(moves, axis, n - 1) + Signed(Negative(moves[n - 1], axis), StepsOn(moves[n - 1], axis))
  }

  /** Signed steps pulsed so far along an axis. */
  function Position(t: Ideal, axis: Axis): int
    requires -1 <= t.exec < |t.moves| && forall k :: 0 <= k < |t.moves| ==> WellFormed(t.moves[k])
  {
    if t.exec == -1 then 0
    else
      var m := t.moves[t.exec];
      assert WellFormed(m);
      Travel(t.moves, axis, t.exec) + Signed(Negative(m, axis), Pulses(StepsOn(m, axis), m.events, t.units))
  }

  lemma UnitsInRange(t: Ideal, remaining: nat)
    requires Tracing(t, remaining) && 0 <= t.exec
    ensures t.units <= 8 * t.moves[t.exec].events
  {
    assert Done(t, t.exec) + Owed(t, t.exec) + Uncut(t, remaining, t.exec) == 8 * t.moves[t.exec].events;
  }

  /** Once nothing is pending or uncut, every axis has made exactly the steps of all moves. */
  lemma DrainedIsExact(t: Ideal, axis: Axis)
    requires Tracing(t, 0) && t.pending == []
    ensures Position(t, axis) == Travel(t.moves, axis, |t.moves|)
  {
    if t.moves != [] {
      var k := |t.moves| - 1;
      assert 0 < t.moves[k].events;
      assert t.exec == k;
      assert Done(t, k) + Owed(t, k) + Uncut(t, 0, k) == 8 * t.moves[k].events;
      BlockIsExact(StepsOn(t.moves[k], axis), t.moves[k].events);
    }
  }

  /** So the last move is finished as well: its counters are back at half. */
  lemma DrainedIsFinished(t: Ideal, axis: Axis)
    requires Tracing(t, 0) && t.pending == [] && t.moves != []
    ensures t.exec == |t.moves| - 1
    ensures var m := t.moves[t.exec];
            && WellFormed(m)
            && Pulses(StepsOn(m, axis), m.events, t.units) == StepsOn(m, axis)
            && Counter(StepsOn(m, axis), m.events, t.units) == 4 * m.events
  {
    var k := |t.moves| - 1;
    assert 0 < t.moves[k].events;
    assert t.exec == k;
    assert Done(t, k) + Owed(t, k) + Uncut(t, 0, k) == 8 * t.moves[k].events;
    BlockIsExact(StepsOn(t.moves[k], axis), t.moves[k].events);
  }

  /** The position never leaves the interval between the ends of the move being traced. */
  lemma BetweenTheEnds(t: Ideal, remaining: nat, axis: Axis)
    requires Tracing(t, remaining) && 0 <= t.exec
    ensures var a, b := Travel(t.moves, axis, t.exec), Travel(t.moves, axis, t.exec + 1);
            a <= Position(t, axis) <= b || b <= Position(t, axis) <= a
  {
    var m := t.moves[t.exec];
    UnitsInRange(t, remaining);
    BlockIsExact(StepsOn(m, axis), m.events);
    PulsesMonotone(StepsOn(m, axis), m.events, 0, t.units);
    PulsesMonotone(StepsOn(m, axis), m.events, t.units, 8 * m.events);
  }

  /** Beginning a piece does not move anything: a finished move and a move not begun meet. */
  lemma BeginStays(t: Ideal, remaining: nat, axis: Axis)
    requires Tracing(t, remaining) && t.left == 0 && t.pending != []
    ensures Tracing(Begun(t), remaining) && Position(Begun(t), axis) == Position(t, axis)
  {
    BeginTraces(t, remaining);
    if t.pending[0].serial != t.exec {
      MoveIsFinished(t, remaining);
      var next := t.moves[t.exec + 1];
      BlockIsExact(StepsOn(next, axis), next.events);
      if 0 <= t.exec {
        var m := t.moves[t.exec];
        BlockIsExact(StepsOn(m, axis), m.events);
      }
    }
  }
}
