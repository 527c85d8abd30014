/**
 The homing cycle of a machine whose X axis has two motors, each with its own limit switch. The switches, the
 position and the pending flags are read once for each poll of the loop; what is read is the input here.
 */
module Homing {
  import opened Results
  import opened Reals
  import PlannerQueue
  import SoftLimits
  import Tracer

  type Axis = Tracer.Axis

  /** A motor, and the limit switch it is stopped by. X2 is the second motor of the X axis. */
  datatype Motor = X1 | X2 | Y1

  /**
   One poll: switches engaged, X position, pending flags, whether an alarm is already set, and the switches as
   read again when the loop is about to be left.
   */
  datatype Poll = Poll(
    engaged: set<Motor>,
    position: int,
    reset: bool,
    door: bool,
    cycleStop: bool,
    alarm: bool,
    engagedLater: set<Motor>)

  datatype Failure = ResetDuringHoming | DoorOpened | PullOffFailed | NotFound | Skewed | OtherAlarm

  /** How a phase ends: after some number of polls, or not within the polls given. */
  datatype Phase = Done(polls: nat) | Failed(polls: nat, failure: Failure) | Running

  /** The motors of the axes being homed. */
  function Motors(axes: set<Axis>): set<Motor> {
    (if Tracer.X in axes then {X1, X2} else {}) + (if Tracer.Y in axes then {Y1} else {})
  }

  /** The motor's own switch has been seen engaged in the first `n` polls. */
  ghost predicate Latched(polls: seq<Poll>, n: nat, m: Motor)
    requires n <= |polls|
  {
    exists k :: 0 <= k < n && m in polls[k].engaged
  }

  ghost predicate AllLatched(polls: seq<Poll>, n: nat, axes: set<Axis>)
    requires n <= |polls|
  {
    forall m :: m in Motors(axes) ==> Latched(polls, n, m)
  }

  /** One side of the X axis has been stopped and the other has not. */
  ghost predicate OneSided(polls: seq<Poll>, n: nat)
    requires n <= |polls|
  {
    Latched(polls, n, X1) != Latched(polls, n, X2)
  }

  /** Poll `f` is the first at which either side of the X axis is stopped. */
  ghost predicate FirstTrigger(polls: seq<Poll>, f: nat)
    requires f < |polls|
  {
    && (X1 in polls[f].engaged || X2 in polls[f].engaged)
    && forall k :: 0 <= k < f ==> X1 !in polls[k].engaged && X2 !in polls[k].engaged
  }

  function Distance(a: int, b: int): nat {
    if a < b then b - a else a - b
  }

  /** At poll `j` only one side of the X axis is stopped, further than `limit` from where the first side was. */
  ghost predicate TooSkewed(polls: seq<Poll>, j: nat, limit: int)
    requires j < |polls|
  {
    exists f :: 0 <= f < j && FirstTrigger(polls, f) && OneSided(polls, j + 1)
      && Distance(polls[f].position, polls[j].position) > limit
  }

  /** A pending flag or alarm ends the loop at this poll. */
  predicate Interrupted(p: Poll) {
    p.reset || p.door || p.cycleStop
  }

  /** Nothing ended an approach in its first `n` polls. */
  ghost predicate Undisturbed(polls: seq<Poll>, n: nat, axes: set<Axis>, limit: int)
    requires n <= |polls|
  {
    forall j :: 0 <= j < n ==> !Interrupted(polls[j]) && !(Tracer.X in axes && TooSkewed(polls, j, limit))
  }

  /** What the flags at the end of a loop lead to; later findings take precedence. */
  function Verdict(approach: bool, axes: set<Axis>, p: Poll): Option<Failure> {
    if approach && p.cycleStop then Some(NotFound)
    else if !approach && p.engagedLater * Motors(axes) != {} then Some(PullOffFailed)
    else if p.door then Some(DoorOpened)
    else if p.reset then Some(ResetDuringHoming)
    else if p.alarm then Some(OtherAlarm)
    else None
  }

  // ---------------------------------------------------------------------------------------------
  // An approach

  /** What the loop knows of the X axis after `k` polls: which sides were stopped, and where the first was. */
  ghost predicate Watching(polls: seq<Poll>, k: nat, first: bool, second: bool, armed: bool, position: int)
    requires k <= |polls|
  {
    var one, two := Latched(polls, k, X1), Latched(polls, k, X2);
    if !one && !two then !first && !second && !armed
    else if armed then
      first == one && second == two && exists f :: 0 <= f < k && FirstTrigger(polls, f) && position == polls[f].position
    else one && two && !first && !second
  }

  lemma LatchedNext(polls: seq<Poll>, k: nat, m: Motor)
    requires k < |polls|
    ensures Latched(polls, k + 1, m) <==> Latched(polls, k, m) || m in polls[k].engaged
  {
    if Latched(polls, k + 1, m) {
      var i :| 0 <= i < k + 1 && m in polls[i].engaged;
      assert i < k || i == k;
    }
  }

  lemma FirstStop(polls: seq<Poll>, k: nat)
    requires k < |polls| && !Latched(polls, k, X1) && !Latched(polls, k, X2)
    requires X1 in polls[k].engaged || X2 in polls[k].engaged
    ensures FirstTrigger(polls, k)
  {
  }

  /** How an approach ends. */
  ghost predicate ApproachEnds(polls: seq<Poll>, axes: set<Axis>, limit: int, r: Phase) {
    match r
    case Done(n) =>
      && 0 < n <= |polls|
      && AllLatched(polls, n, axes) && (1 < n ==> !AllLatched(polls, n - 1, axes))
      && Undisturbed(polls, n, axes, limit)
    case Failed(n, failure) =>
      && 0 < n <= |polls|
      && (1 < n ==> !AllLatched(polls, n - 1, axes))
      && Undisturbed(polls, n - 1, axes, limit)
      && var skewed := Tracer.X in axes && TooSkewed(polls, n - 1, limit);
         if failure == Skewed then skewed
         else !skewed && Interrupted(polls[n - 1]) && Verdict(true, axes, polls[n - 1]) == Some(failure)
    case Running => Undisturbed(polls, |polls|, axes, limit) && (polls != [] ==> !AllLatched(polls, |polls|, axes))
  }

  /**
   Approaches the switches. Every motor goes on until its own switch is engaged. `limit` is how far one side of
   the X axis may go on after the other has stopped.
   */
  method Approach(polls: seq<Poll>, axes: set<Axis>, limit: int) returns (r: Phase)
    ensures ApproachEnds(polls, axes, limit, r)
  {
    var moving := Motors(axes);
    var first, second, armed, position := false, false, false, 0;
    var k := 0;
    while k < |polls|
      invariant 0 <= k <= |polls|
      invariant forall m :: m in moving <==> m in Motors(axes) && !Latched(polls, k, m)
      invariant Tracer.X in axes ==> Watching(polls, k, first, second, armed, position)
      invariant Tracer.X !in axes ==> !first && !second && !armed
      invariant Undisturbed(polls, k, axes, limit)
      invariant 0 < k ==> moving != {} && !AllLatched(polls, k, axes)
    {
      var p := polls[k];
      forall m: Motor
        ensures Latched(polls, k + 1, m) <==> Latched(polls, k, m) || m in p.engaged
      {
        LatchedNext(polls, k, m);
      }
      var fails;
      first, second, armed, position, fails :=
        WatchSkew(polls, k, Tracer.X in axes, p, moving, first, second, armed, position, limit);
      moving := moving - p.engaged;
      k := k + 1;
      if fails {
        return Failed(k, Skewed);
      }
      if Interrupted(p) {
        return Failed(k, Failing(axes, p));
      }
      if moving == {} {
        return Done(k);
      }
    }
    return Running;
  }

  /**
   The watch on the skew. When the first side stops, its position is recorded; from the next poll on the other
   side must follow within the limit.
   */
  method WatchSkew(
      ghost polls: seq<Poll>, ghost k: nat, ghost homingX: bool, p: Poll, moving: set<Motor>,
      first0: bool, second0: bool, armed0: bool, position0: int, limit: int)
    returns (first: bool, second: bool, armed: bool, position: int, fails: bool)
    requires k < |polls| && p == polls[k]
    requires homingX ==> Watching(polls, k, first0, second0, armed0, position0)
    requires homingX ==> (X1 in moving <==> !Latched(polls, k, X1)) && (X2 in moving <==> !Latched(polls, k, X2))
    requires !homingX ==> X1 !in moving && X2 !in moving && !first0 && !second0 && !armed0
    ensures fails <==> homingX && TooSkewed(polls, k, limit)
    ensures homingX && !fails ==> Watching(polls, k + 1, first, second, armed, position)
    ensures !homingX ==> !first && !second && !armed
  {
    first, second, armed, position, fails := first0, second0, armed0, position0, false;
    LatchedNext(polls, k, X1);
    LatchedNext(polls, k, X2);
    if X1 in moving && X1 in p.engaged {
      first := true;
    }
    if X2 in moving && X2 in p.engaged {
      second := true;
    }
    if first || second || armed {
      if armed {
        WatchedSkew(polls, k, first0, second0, position, limit);
        if first && second {
          first, second, armed := false, false, false;
        } else if Distance(position, p.position) > limit {
          fails := true;
        }
      } else {
        FirstStop(polls, k);
        armed, position := true, p.position;
      }
    }
  }

  /** While the watch is armed, the skew is measured from where the first side stopped. */
  lemma WatchedSkew(polls: seq<Poll>, k: nat, first: bool, second: bool, position: int, limit: int)
    requires k < |polls| && Watching(polls, k, first, second, true, position)
    ensures TooSkewed(polls, k, limit) <==> OneSided(polls, k + 1) && Distance(position, polls[k].position) > limit
  {
    var f :| 0 <= f < k && FirstTrigger(polls, f) && position == polls[f].position;
  }

  /** The failure an interrupted approach ends with. */
  function Failing(axes: set<Axis>, p: Poll): (f: Failure)
    requires Interrupted(p)
    ensures Verdict(true, axes, p) == Some(f) && f != Skewed
  {
    if p.cycleStop then NotFound else if p.door then DoorOpened else ResetDuringHoming
  }

  // ---------------------------------------------------------------------------------------------
  // A pull-off

  /** How a pull-off ends. */
  ghost predicate PullOffEnds(polls: seq<Poll>, axes: set<Axis>, r: Phase) {
    match r
    case Done(n) =>
      && 0 < n <= |polls| && (forall j :: 0 <= j < n - 1 ==> !Interrupted(polls[j]))
      && var p := polls[n - 1]; p.cycleStop && !p.reset && !p.door && !p.alarm && p.engagedLater !! Motors(axes)
    case Failed(n, failure) =>
      && 0 < n <= |polls| && (forall j :: 0 <= j < n - 1 ==> !Interrupted(polls[j]))
      && Interrupted(polls[n - 1]) && Verdict(false, axes, polls[n - 1]) == Some(failure)
    case Running => forall j :: 0 <= j < |polls| ==> !Interrupted(polls[j])
  }

  /** Backs off for the pull-off distance. All switches of the axes, both of the X axis, must then be released. */
  method PullOff(polls: seq<Poll>, axes: set<Axis>) returns (r: Phase)
    ensures PullOffEnds(polls, axes, r)
  {
    var k := 0;
    while k < |polls|
      invariant 0 <= k <= |polls|
      invariant forall j :: 0 <= j < k ==> !Interrupted(polls[j])
    {
      var p := polls[k];
      k := k + 1;
      if Interrupted(p) {
        var failure: Option<Failure> := None;
        if p.alarm {
          failure := Some(OtherAlarm);
        }
        if p.reset {
          failure := Some(ResetDuringHoming);
        }
        if p.door {
          failure := Some(DoorOpened);
        }
        if p.engagedLater * Motors(axes) != {} {
          failure := Some(PullOffFailed);
        }
        if failure.Some? {
          return Failed(k, failure.value);
        }
        return Done(k);
      }
    }
    return Running;
  }

  // ---------------------------------------------------------------------------------------------
  // The cycle

  /** How phase `i` of the cycle ends; approaches and pull-offs alternate. */
  ghost predicate Ends(i: nat, polls: seq<Poll>, axes: set<Axis>, limit: int, r: Phase) {
    if i % 2 == 0 then ApproachEnds(polls, axes, limit, r) else PullOffEnds(polls, axes, r)
  }

  /**
   The failure a phase ends with, if not for the skew: in an approach the end of the motion comes before all, in a
   pull-off a switch still engaged; then the door, the reset, and an alarm set before.
   */
  lemma FailuresAreNamed(i: nat, polls: seq<Poll>, axes: set<Axis>, limit: int, n: nat, failure: Failure)
    requires Ends(i, polls, axes, limit, Failed(n, failure)) && failure != Skewed
    ensures 0 < n <= |polls|
    ensures var p := polls[n - 1];
            var engaged := (Tracer.X in axes && (X1 in p.engagedLater || X2 in p.engagedLater))
                           || (Tracer.Y in axes && Y1 in p.engagedLater);
            && (failure == NotFound <==> i % 2 == 0 && p.cycleStop)
            && (failure == PullOffFailed <==> i % 2 == 1 && engaged)
            && (failure == DoorOpened <==> p.door && if i % 2 == 0 then !p.cycleStop else !engaged)
            && (failure == ResetDuringHoming <==> p.reset && !p.door && if i % 2 == 0 then !p.cycleStop else !engaged)
            && (failure == OtherAlarm ==> i % 2 == 1 && p.alarm)
  {
    var p, motors := polls[n - 1], Motors(axes);
    assert X1 in motors <==> Tracer.X in axes;
    assert X2 in motors <==> Tracer.X in axes;
    assert Y1 in motors <==> Tracer.Y in axes;
    assert p.engagedLater * motors != {} <==> X1 in p.engagedLater * motors || X2 in p.engagedLater * motors
                                              || Y1 in p.engagedLater * motors by {
      if p.engagedLater * motors != {} {
        var m :| m in p.engagedLater * motors;
        assert m == X1 || m == X2 || m == Y1;
      }
    }
  }

  lemma StaysLatched(polls: seq<Poll>, n: nat, k: nat, axes: set<Axis>)
    requires n <= k <= |polls| && AllLatched(polls, n, axes)
    ensures AllLatched(polls, k, axes)
  {
    forall m | m in Motors(axes)
      ensures Latched(polls, k, m)
    {
      assert Latched(polls, n, m);
    }
  }

  /** The number of polls after which an approach ends is determined. */
  lemma ApproachLength(polls: seq<Poll>, axes: set<Axis>, limit: int, r: Phase, r': Phase)
    requires ApproachEnds(polls, axes, limit, r) && ApproachEnds(polls, axes, limit, r')
    requires r.Done? || r.Failed?
    ensures r' != Running && r.polls <= r'.polls
  {
    if r.Done? {
      StaysLatched(polls, r.polls, |polls|, axes);
    }
  }

  /** A phase ends in one way only: there is one number of polls, and one failure if it fails. */
  lemma EndsOneWay(i: nat, polls: seq<Poll>, axes: set<Axis>, limit: int, r: Phase, r': Phase)
    requires Ends(i, polls, axes, limit, r) && Ends(i, polls, axes, limit, r')
    ensures r == r'
  {
    if i % 2 == 0 {
      if r != Running {
        ApproachLength(polls, axes, limit, r, r');
      }
      if r' != Running {
        ApproachLength(polls, axes, limit, r', r);
      }
    }
  }

  datatype Outcome = Homed | Alarm(failure: Failure) | Pending

  /** Number of phases: a search and `locate` further approaches, each followed by a pull-off. */
  function PhaseCount(locate: nat): nat {
    2 * locate + 2
  }

  /** How the phase after those that went well ends, for each outcome of the cycle. */
  ghost predicate Settles(r: Outcome, i: nat, polls: seq<Poll>, axes: set<Axis>, limit: int) {
    match r
    case Homed => false
    case Alarm(failure) => exists n: nat :: Ends(i, polls, axes, limit, Failed(n, failure))
    case Pending => Ends(i, polls, axes, limit, Running)
  }

  /** How the cycle as a whole ends. */
  ghost predicate CycleEnds(
      phases: seq<seq<Poll>>, axes: set<Axis>, limit: int, locate: nat, r: Outcome, done: seq<nat>)
    requires PhaseCount(locate) <= |phases|
  {
    && |done| <= PhaseCount(locate)
    && (forall i :: 0 <= i < |done| ==> Ends(i, phases[i], axes, limit, Done(done[i])))
    && (r.Homed? <==> |done| == PhaseCount(locate))
    && (!r.Homed? ==> Settles(r, |done|, phases[|done|], axes, limit))
  }

  /**
   The cycle, for the polls of each of its phases. If it ends without an alarm, every approach stopped every
   motor by its own switch without the X axis ever being too skewed, every pull-off released all of the
   switches, and the last phase was a pull-off. After an alarm the phase it was in failed in just that way, and a
   cycle that is still pending is in a phase that has not ended. `done` has the number of polls of each phase that
   went well.
   */
  method GoHome(phases: seq<seq<Poll>>, axes: set<Axis>, limit: int, locate: nat) returns (r: Outcome, done: seq<nat>)
    requires PhaseCount(locate) <= |phases|
    ensures CycleEnds(phases, axes, limit, locate, r, done)
    ensures r.Homed? ==> PullOffEnds(phases[PhaseCount(locate) - 1], axes, Done(done[PhaseCount(locate) - 1]))
  {
    done := [];
    var approach := true;
    var left := 2 * locate + 1;
    while true
      invariant |done| + left == 2 * locate + 1 && 0 <= left
      invariant approach <==> |done| % 2 == 0
      invariant forall i :: 0 <= i < |done| ==> Ends(i, phases[i], axes, limit, Done(done[i]))
      decreases left
    {
      var polls := phases[|done|];
      var r1 := RunPhase(approach, polls, axes, limit, |done|);
      match r1 {
        case Failed(n, failure) => return Alarm(failure), done;
        case Running => return Pending, done;
        case Done(n) => done := done + [n];
      }
      approach := !approach;
      if left == 0 {
        break;
      }
      left := left - 1;
    }
    return Homed, done;
  }

  /** One phase, approach or pull-off. */
  method RunPhase(approach: bool, polls: seq<Poll>, axes: set<Axis>, limit: int, ghost i: nat) returns (r: Phase)
    requires approach <==> i % 2 == 0
    ensures Ends(i, polls, axes, limit, r)
  {
    if approach {
      r := Approach(polls, axes, limit);
    } else {
      r := PullOff(polls, axes);
    }
  }

  /** In an approach of `n` polls both motors of the X axis met their own switches, and that of the Y axis its own. */
  ghost predicate AllMet(polls: seq<Poll>, n: nat, axes: set<Axis>) {
    && n <= |polls|
    && (Tracer.X in axes ==> Latched(polls, n, X1) && Latched(polls, n, X2))
    && (Tracer.Y in axes ==> Latched(polls, n, Y1))
  }

  /** After a pull-off of `n` polls none of these switches is engaged. */
  ghost predicate AllReleased(polls: seq<Poll>, n: nat, axes: set<Axis>) {
    && 0 < n <= |polls|
    && (Tracer.X in axes ==> X1 !in polls[n - 1].engagedLater && X2 !in polls[n - 1].engagedLater)
    && (Tracer.Y in axes ==> Y1 !in polls[n - 1].engagedLater)
  }

  /** A homed machine met all switches in the search and `locate` further approaches, and released them after each. */
  lemma HomedMeans(phases: seq<seq<Poll>>, axes: set<Axis>, limit: int, locate: nat, done: seq<nat>)
    requires PhaseCount(locate) <= |phases| && CycleEnds(phases, axes, limit, locate, Homed, done)
    ensures |done| == 2 * (locate + 1)
    ensures forall i :: 0 <= i < |done| ==>
              if i % 2 == 0 then AllMet(phases[i], done[i], axes) else AllReleased(phases[i], done[i], axes)
  {
    forall i | 0 <= i < |done|
      ensures if i % 2 == 0 then AllMet(phases[i], done[i], axes) else AllReleased(phases[i], done[i], axes)
    {
      assert Ends(i, phases[i], axes, limit, Done(done[i]));
      PhaseMeans(i, phases[i], axes, limit, done[i]);
    }
  }

  lemma PhaseMeans(i: nat, polls: seq<Poll>, axes: set<Axis>, limit: int, n: nat)
    requires Ends(i, polls, axes, limit, Done(n))
    ensures if i % 2 == 0 then AllMet(polls, n, axes) else AllReleased(polls, n, axes)
  {
    var motors := Motors(axes);
    assert Tracer.X in axes ==> X1 in motors && X2 in motors;
    assert Tracer.Y in axes ==> Y1 in motors;
  }

  /** No cycle gets further than another for the same polls: what is read determines the outcome. */
  lemma NoFurther(
      phases: seq<seq<Poll>>, axes: set<Axis>, limit: int, locate: nat, r: Outcome, done: seq<nat>, r': Outcome,
      done': seq<nat>)
    requires PhaseCount(locate) <= |phases|
    requires CycleEnds(phases, axes, limit, locate, r, done) && CycleEnds(phases, axes, limit, locate, r', done')
    ensures |done| <= |done'|
    ensures forall i :: 0 <= i < |done| ==> done[i] == done'[i]
  {
    forall i | 0 <= i < |done| && i < |done'|
      ensures done[i] == done'[i]
    {
      EndsOneWay(i, phases[i], axes, limit, Done(done[i]), Done(done'[i]));
    }
    if |done'| < |done| {
      var i := |done'|;
      if r'.Pending? {
        EndsOneWay(i, phases[i], axes, limit, Running, Done(done[i]));
      } else {
        var n: nat :| Ends(i, phases[i], axes, limit, Failed(n, r'.failure));
        EndsOneWay(i, phases[i], axes, limit, Failed(n, r'.failure), Done(done[i]));
      }
    }
  }

  /** The outcome of the cycle, its failure included, is determined by what is read at the polls. */
  lemma CycleEndsOneWay(
      phases: seq<seq<Poll>>, axes: set<Axis>, limit: int, locate: nat, r: Outcome, done: seq<nat>, r': Outcome,
      done': seq<nat>)
    requires PhaseCount(locate) <= |phases|
    requires CycleEnds(phases, axes, limit, locate, r, done) && CycleEnds(phases, axes, limit, locate, r', done')
    ensures r == r' && done == done'
  {
    NoFurther(phases, axes, limit, locate, r, done, r', done');
    NoFurther(phases, axes, limit, locate, r', done', r, done);
    if !r.Homed? {
      SettlesOneWay(r, r', |done|, phases[|done|], axes, limit);
    }
  }

  lemma SettlesOneWay(r: Outcome, r': Outcome, i: nat, polls: seq<Poll>, axes: set<Axis>, limit: int)
    requires Settles(r, i, polls, axes, limit) && Settles(r', i, polls, axes, limit)
    ensures r == r'
  {
    var p := if r.Pending? then Running else EndOf(r.failure, i, polls, axes, limit);
    var p' := if r'.Pending? then Running else EndOf(r'.failure, i, polls, axes, limit);
    EndsOneWay(i, polls, axes, limit, p, p');
  }

  ghost function EndOf(failure: Failure, i: nat, polls: seq<Poll>, axes: set<Axis>, limit: int): (r: Phase)
    requires exists n: nat :: Ends(i, polls, axes, limit, Failed(n, failure))
    ensures Ends(i, polls, axes, limit, r) && r.Failed? && r.failure == failure
  {
    var n: nat :| Ends(i, polls, axes, limit, Failed(n, failure));
    Failed(n, failure)
  }

  // ---------------------------------------------------------------------------------------------
  // Distances

  const FAIL_DISTANCE_MAX := 25.0
  const FAIL_DISTANCE_MIN := 2.5

  /** A share of the length of the other axis, within bounds. */
  function FailMm(otherTravel: real): (mm: real)
    ensures FAIL_DISTANCE_MIN <= mm <= FAIL_DISTANCE_MAX
  {
    var share := -5.0 / 100.0 * otherTravel;
    var capped := if share < FAIL_DISTANCE_MAX then share else FAIL_DISTANCE_MAX;
    if capped > FAIL_DISTANCE_MIN then capped else FAIL_DISTANCE_MIN
  }

  /** How far one side may go on alone, in whole steps. */
  function FailDistance(otherTravel: real, scale: real): int {
    (FailMm(otherTravel) * scale).Floor
  }

  /** The distance is the share itself where that is within the bounds, and the nearer bound otherwise. */
  lemma FailDistanceBounds(otherTravel: real, scale: real)
    requires 0.0 < scale
    ensures (FAIL_DISTANCE_MIN * scale).Floor <= FailDistance(otherTravel, scale) <= (FAIL_DISTANCE_MAX * scale).Floor
    ensures -50.0 >= otherTravel >= -500.0 ==> FailDistance(otherTravel, scale) == (-otherTravel / 20.0 * scale).Floor
    ensures otherTravel >= -50.0 ==> FailDistance(otherTravel, scale) == (FAIL_DISTANCE_MIN * scale).Floor
    ensures otherTravel <= -500.0 ==> FailDistance(otherTravel, scale) == (FAIL_DISTANCE_MAX * scale).Floor
  {
    FloorBetween(FAIL_DISTANCE_MIN, FailMm(otherTravel), FAIL_DISTANCE_MAX, scale);
    assert -50.0 >= otherTravel >= -500.0 ==> FailMm(otherTravel) == -otherTravel / 20.0;
  }

  lemma FloorBetween(x: real, y: real, z: real, scale: real)
    requires x <= y <= z && 0.0 < scale
    ensures (x * scale).Floor <= (y * scale).Floor <= (z * scale).Floor
  {
    ScaleMonotone(x, y, scale);
    ScaleMonotone(y, z, scale);
  }

  /** Where a homed axis is left: one pull-off distance from the end its switch is at. */
  function HomeMm(negativeEnd: bool, maxTravel: real, pullOff: real): real {
    if negativeEnd then pullOff else -maxTravel - pullOff
  }

  /** A length in whole steps. */
  function InSteps(mm: real, scale: real): int {
    PlannerQueue.Lround(mm * scale)
  }

  /** The machine position set for a homed axis. */
  function HomePosition(negativeEnd: bool, maxTravel: real, pullOff: real, scale: real): int {
    InSteps(HomeMm(negativeEnd, maxTravel, pullOff), scale)
  }

  const AXIS_SEARCH_SCALAR := 1.5
  const AXIS_LOCATE_SCALAR := 5.0

  /** The search goes further than the longest travel of the axes being homed. Travel is stored as a negative number. */
  function SearchMm(axes: set<Axis>, maxTravel: PlannerQueue.Point): real {
    var x := if Tracer.X in axes then Greater(0.0, -AXIS_SEARCH_SCALAR * maxTravel.x) else 0.0;
    if Tracer.Y in axes then Greater(x, -AXIS_SEARCH_SCALAR * maxTravel.y) else x
  }

  function Greater(x: real, y: real): real {
    if x > y then x else y
  }

  /** How far phase `i` may go: the search, the locating approaches and the pull-offs. */
  function PhaseMm(i: nat, axes: set<Axis>, maxTravel: PlannerQueue.Point, pullOff: real): real {
    if i == 0 then SearchMm(axes, maxTravel)
    else if i % 2 == 0 then pullOff * AXIS_LOCATE_SCALAR
    else pullOff
  }

  /** Where phase `i` is to lead, from the position at its start. */
  function PhaseTarget(
      i: nat, negativeEnd: bool, axes: set<Axis>, maxTravel: PlannerQueue.Point, pullOff: real): real
  {
    var mm := PhaseMm(i, axes, maxTravel, pullOff);
    if negativeEnd then (if i % 2 == 0 then -mm else mm) else (if i % 2 == 0 then mm else -mm)
  }

  /** Where the switch of an axis is: at zero, or at the end of the travel. */
  function SwitchMm(negativeEnd: bool, maxTravel: real): real {
    if negativeEnd then 0.0 else -maxTravel
  }

  function TravelOf(axis: Axis, maxTravel: PlannerQueue.Point): real {
    if axis == Tracer.X then maxTravel.x else maxTravel.y
  }

  lemma SearchIsLongEnough(axis: Axis, axes: set<Axis>, maxTravel: PlannerQueue.Point)
    requires axis in axes && TravelOf(axis, maxTravel) < 0.0
    ensures -TravelOf(axis, maxTravel) < SearchMm(axes, maxTravel)
  {
  }

  /**
   Every approach leads toward the end the switch is at, and far enough to meet it: the search from any place `mm`
   within the travel, a locating approach past the pull-off before it. Every pull-off leads away from it.
   */
  lemma PhasesLeadToTheSwitch(
      i: nat, axis: Axis, negativeEnd: bool, axes: set<Axis>, maxTravel: PlannerQueue.Point, pullOff: real, mm: real)
    requires axis in axes && 0.0 <= mm <= -TravelOf(axis, maxTravel) && TravelOf(axis, maxTravel) < 0.0 < pullOff
    ensures var target := PhaseTarget(i, negativeEnd, axes, maxTravel, pullOff);
            var next := PhaseTarget(i + 1, negativeEnd, axes, maxTravel, pullOff);
            var switch := SwitchMm(negativeEnd, TravelOf(axis, maxTravel));
            if i % 2 == 0 then
              if negativeEnd then target < 0.0 && (i == 0 ==> mm + target < switch)
              else target > 0.0 && (i == 0 ==> mm + target > switch)
            else if negativeEnd then target > 0.0 && target + next < 0.0
            else target < 0.0 && target + next > 0.0
  {
    SearchIsLongEnough(axis, axes, maxTravel);
    hide SearchMm;
  }

  /**
   The position set for a homed axis is where the last pull-off has left it: one pull-off from the switch, rounded
   once. At the negative end it is the very number of steps of that pull-off, and at the positive end at most one
   step from it.
   */
  lemma HomedOffItsSwitch(
      axis: Axis, negativeEnd: bool, axes: set<Axis>, maxTravel: PlannerQueue.Point, pullOff: real, scale: real,
      locate: nat)
    requires axis in axes && 0.0 < scale
    ensures var travel := TravelOf(axis, maxTravel);
            var target := PhaseTarget(PhaseCount(locate) - 1, negativeEnd, axes, maxTravel, pullOff);
            var position := HomePosition(negativeEnd, travel, pullOff, scale);
            && target == (if negativeEnd then pullOff else -pullOff)
            && position == InSteps(SwitchMm(negativeEnd, travel) + target, scale)
            && (negativeEnd ==> position == InSteps(target, scale))
            && (!negativeEnd ==>
                  -1 <= position - (SoftLimits.TravelSteps(travel, scale) + InSteps(target, scale)) <= 1)
  {
    LastPullOff(negativeEnd, axes, maxTravel, pullOff, locate);
    TravelInSteps(TravelOf(axis, maxTravel), scale);
    hide InSteps, PhaseTarget, PhaseCount, TravelOf, SoftLimits.TravelSteps;
    var travel := TravelOf(axis, maxTravel);
    SumInSteps(-travel, -pullOff, scale);
    assert -travel + -pullOff == -travel - pullOff;
  }

  lemma LastPullOff(negativeEnd: bool, axes: set<Axis>, maxTravel: PlannerQueue.Point, pullOff: real, locate: nat)
    ensures PhaseTarget(PhaseCount(locate) - 1, negativeEnd, axes, maxTravel, pullOff)
         == if negativeEnd then pullOff else -pullOff
  {
    assert (2 * locate + 1) % 2 == 1 && 2 * locate + 1 != 0;
  }

  lemma TravelInSteps(travel: real, scale: real)
    ensures SoftLimits.TravelSteps(travel, scale) == InSteps(-travel, scale)
  {
  }

  lemma SumInSteps(x: real, y: real, scale: real)
    ensures -1 <= InSteps(x + y, scale) - (InSteps(x, scale) + InSteps(y, scale)) <= 1
  {
    RoundedSum(x * scale, y * scale);
    assert (x + y) * scale == x * scale + y * scale;
    hide PlannerQueue.Lround;
  }

  lemma RoundedSum(x: real, y: real)
    ensures -1 <= PlannerQueue.Lround(x + y) - (PlannerQueue.Lround(x) + PlannerQueue.Lround(y)) <= 1
  {
  }

  lemma HomedInRange(negativeEnd: bool, maxTravel: real, pullOff: real, scale: real)
    requires 0.0 <= pullOff <= -maxTravel && 0.0 < scale
    ensures 0 <= HomePosition(negativeEnd, maxTravel, pullOff, scale) <= SoftLimits.TravelSteps(maxTravel, scale)
  {
    SoftLimits.ScaledInRange(HomeMm(negativeEnd, maxTravel, pullOff), maxTravel, scale);
  }

  /** A homed machine is in its working area. */
  lemma HomedInArea(
      negativeX: bool, negativeY: bool, maxTravel: PlannerQueue.Point, pullOff: real, scale: PlannerQueue.Point)
    requires 0.0 <= pullOff <= -maxTravel.x && pullOff <= -maxTravel.y && 0.0 < scale.x && 0.0 < scale.y
    ensures SoftLimits.InArea(HomePosition(negativeX, maxTravel.x, pullOff, scale.x),
                              HomePosition(negativeY, maxTravel.y, pullOff, scale.y), maxTravel, scale)
  {
    HomedInRange(negativeX, maxTravel.x, pullOff, scale.x);
    HomedInRange(negativeY, maxTravel.y, pullOff, scale.y);
  }
}
