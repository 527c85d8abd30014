/**
 The line tracer of one axis. All stepping data of a block is scaled by eight, so that a tick of the
 interrupt can stand for an eighth, a quarter, a half or the whole of a step event without rounding. A
 `unit` is an eighth of a step event.
 */
module Bresenham {

  type Level = l: nat | l < 4

  /** Units a tick stands for. */
  function Unit(level: Level): nat {
    if level == 0 then 8 else if level == 1 then 4 else if level == 2 then 2 else 1
  }

  /** Ticks it takes to execute one step event. */
  function Ticks(level: Level): nat {
    if level == 0 then 1 else if level == 1 then 2 else if level == 2 then 4 else 8
  }

  lemma TicksAreSteps(level: Level)
    ensures Ticks(level) * Unit(level) == 8
  {
  }

  /** One tick: the counter is advanced, and wraps with a pulse when it passes the event count. */
  function Advance(counter: nat, increment: nat, eventCount: nat): (r: (nat, bool))
    requires counter <= eventCount && increment <= eventCount
    ensures r.0 <= eventCount
  {
    if counter + increment > eventCount then (counter + increment - eventCount, true) else (counter + increment, false)
  }

  /** Pulses an axis of `steps` steps has made after `units` units of a block of `events` step events. */
  function Pulses(steps: nat, events: nat, units: nat): int
    requires 0 < events
  {
    (4 * events + steps * units - 1) / (8 * events)
  }

  function Counter(steps: nat, events: nat, units: nat): int
    requires 0 < events
  {
    4 * events + steps * units - 8 * events * Pulses(steps, events, units)
  }

  /** What `Pulses` and `Counter` are: the counter is in range and no pulse is lost or gained. */
  lemma CounterInRange(steps: nat, events: nat, units: nat)
    requires 0 < events
    ensures 0 < Counter(steps, events, units) <= 8 * events
    ensures 0 <= Pulses(steps, events, units)
  {
    var n, d := 4 * events + steps * units - 1, 8 * events;
    assert 0 <= steps * units;
    assert n == d * (n / d) + n % d;
  }

  lemma PulsesUnique(steps: nat, events: nat, units: nat, pulses: int, counter: int)
    requires 0 < events && 0 < counter <= 8 * events
    requires 8 * events * pulses + counter == 4 * events + steps * units
    ensures pulses == Pulses(steps, events, units) && counter == Counter(steps, events, units)
  {
    CounterInRange(steps, events, units);
    var d, q := 8 * events, Pulses(steps, events, units);
    Apart(d, pulses, q);
    assert d * pulses + counter == d * q + Counter(steps, events, units);
  }

  lemma Apart(d: nat, p: int, q: int)
    ensures p < q ==> d * p + d <= d * q
    ensures q < p ==> d * q + d <= d * p
  {
    if p < q {
      Multiple(d, p, q - p);
    } else if q < p {
      Multiple(d, q, p - q);
    }
  }

  lemma Multiple(d: nat, p: int, k: int)
    requires 1 <= k
    ensures d * p + d <= d * (p + k)
  {
    assert d * (p + k) == d * p + d * k;
    assert 0 <= d * (k - 1) == d * k - d;
  }

  /** A tick at any level takes the axis from the pulses due at `units` to those due at the new total. */
  lemma TickTraces(steps: nat, events: nat, units: nat, level: Level)
    requires steps <= events && 0 < events
    ensures 0 < Counter(steps, events, units) <= 8 * events && steps * Unit(level) <= 8 * events
    ensures var (counter, pulse) := Advance(Counter(steps, events, units), steps * Unit(level), 8 * events);
            && counter == Counter(steps, events, units + Unit(level))
            && Pulses(steps, events, units + Unit(level)) == Pulses(steps, events, units) + if pulse then 1 else 0
  {
    CounterInRange(steps, events, units);
    var p, d := Pulses(steps, events, units), 8 * events;
    var (counter, pulse) := Advance(Counter(steps, events, units), steps * Unit(level), d);
    var p' := p + if pulse then 1 else 0;
    assert steps * (units + Unit(level)) == steps * units + steps * Unit(level);
    assert d * (p + 1) == d * p + d;
    assert d * p' + counter == 4 * events + steps * (units + Unit(level));
    assert pulse || 0 < counter;
    PulsesUnique(steps, events, units + Unit(level), p', counter);
  }

  /** After all units of the block every axis has made exactly its steps, and its counter is back. */
  lemma BlockIsExact(steps: nat, events: nat)
    requires 0 < events
    ensures Pulses(steps, events, 8 * events) == steps && Counter(steps, events, 8 * events) == 4 * events
    ensures Pulses(steps, events, 0) == 0 && Counter(steps, events, 0) == 4 * events
  {
    assert 8 * events * steps + 4 * events == 4 * events + steps * (8 * events);
    PulsesUnique(steps, events, 8 * events, steps, 4 * events);
    PulsesUnique(steps, events, 0, 0, 4 * events);
  }

  /** At every moment each axis is within half a step of the ideal line. */
  lemma WithinHalfAStep(steps: nat, events: nat, units: nat)
    requires 0 < events
    ensures -4 * events <= 8 * events * Pulses(steps, events, units) - steps * units < 4 * events
  {
    CounterInRange(steps, events, units);
  }

  /** At a segment boundary, after `n` whole step events, the dominant axis has made exactly `n` steps. */
  lemma DominantAxis(events: nat, n: nat)
    requires 0 < events
    ensures Pulses(events, events, 8 * n) == n
  {
    assert 8 * events * n + 4 * events == 4 * events + events * (8 * n);
    PulsesUnique(events, events, 8 * n, n, 4 * events);
  }

  lemma PulsesMonotone(steps: nat, events: nat, units: nat, more: nat)
    requires 0 < events && units <= more
    ensures Pulses(steps, events, units) <= Pulses(steps, events, more)
  {
    CounterInRange(steps, events, units);
    CounterInRange(steps, events, more);
    assert steps * units <= steps * more;
    Apart(8 * events, Pulses(steps, events, more), Pulses(steps, events, units));
  }
}
