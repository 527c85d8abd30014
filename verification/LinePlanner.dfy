/**
 A move as the planner takes it up: from a target in millimetres and the direction of the move before to a block in the
 ring.
 */
module LinePlanner {
  import opened Blocks
  import opened Profile
  import opened PlannerQueue
  import opened PlannerRing
  import G = LineGeometry

  /** How a move is to be run: its rate, and the overrides in force. */
  datatype Request = Request(rate: G.Rate, feedPercent: real, rapidPercent: real, fixed: bool)

  /** The settings make sense: every axis has a scale, an acceleration and a greatest rate. */
  predicate Usable(scale: Point, settings: G.Settings) {
    && 0.0 < scale.x && 0.0 < scale.y && 0.0 < scale.z
    && |settings.acceleration| == |settings.maxRate| == 3 && 0.0 <= settings.deviation
    && forall i :: 0 <= i < 3 ==> 0.0 < settings.acceleration[i] && 0.0 < settings.maxRate[i]
  }

  /** The way from one position in whole steps to another, in millimetres. */
  function Delta(a: Steps, b: Steps, scale: Point): (d: seq<real>)
    requires scale.x != 0.0 && scale.y != 0.0 && scale.z != 0.0
    ensures |d| == 3
  {
    [(b.x - a.x) as real / scale.x, (b.y - a.y) as real / scale.y, (b.z - a.z) as real / scale.z]
  }

  /**
   What the planner is told of a move by `delta` after one in direction `previous`: its length, the acceleration and the
   rates its axes allow in its direction, and the speed of the corner between the two.
   */
  ghost predicate GeometryOf(
      g: Geometry, delta: seq<real>, previous: seq<real>, unit: seq<real>, settings: G.Settings, r: Request)
    requires |delta| == |previous| == |unit| == |settings.acceleration| == |settings.maxRate|
  {
    && Physical(g)
    && Sqr(g.millimeters) == G.SumOfSquares(delta)
    && unit == G.ScaledBy(delta, 1.0 / g.millimeters) && G.SumOfSquares(unit) == 1.0
    && G.IsLimit(g.acceleration, settings.acceleration, unit)
    && (exists rapidRate: real ::
          && G.IsLimit(rapidRate, settings.maxRate, unit)
          && g.nominalSpeed
             == G.NominalSpeed(r.rate, g.millimeters, rapidRate, r.feedPercent, r.rapidPercent, r.fixed))
    && G.IsJunction(g.junctionSqr, previous, unit, settings.acceleration, settings.deviation)
  }

  lemma SomewhereElse(a: Steps, b: Steps, scale: Point)
    requires 0.0 < scale.x && 0.0 < scale.y && 0.0 < scale.z && a != b
    ensures exists i :: 0 <= i < 3 && Delta(a, b, scale)[i] != 0.0
  {
    Quotients(b.x - a.x, scale.x);
    Quotients(b.y - a.y, scale.y);
    Quotients(b.z - a.z, scale.z);
    assert a.x != b.x || a.y != b.y || a.z != b.z;
    var d := Delta(a, b, scale);
    assert d[0] != 0.0 || d[1] != 0.0 || d[2] != 0.0;
  }

  lemma Quotients(n: int, scale: real)
    requires 0.0 < scale
    ensures n as real / scale == 0.0 <==> n == 0
  {
    var q := n as real / scale;
    assert q * scale == n as real;
  }

  /** The planner together with the direction of the last move it queued. */
  class MotionPlanner {
    const planner: Planner
    var previousUnit: seq<real>

    ghost predicate Valid()
      reads this, planner, planner.buffer
    {
      planner.Valid() && |previousUnit| == 3 && 0.0 <= planner.previousNominal
    }

    constructor (p: Planner)
      requires p.Valid() && 0.0 <= p.previousNominal
      ensures Valid() && planner == p && previousUnit == [0.0, 0.0, 0.0]
    {
      planner, previousUnit := p, [0.0, 0.0, 0.0];
    }

    /**
     Queues a move to `target`. A move of no whole step is dropped, and leaves the direction of the last one in force.
     */
    method BufferLine(target: Point, scale: Point, settings: G.Settings, r: Request, root: real -> real)
      returns (queued: bool)
      requires Valid() && planner.tail != planner.nextHead && SquareRoot(root) && Usable(scale, settings)
      modifies this, planner, planner.buffer
      ensures Valid()
      ensures queued <==> StepsOf(target, scale) != old(planner.position)
      ensures !queued ==> previousUnit == old(previousUnit) && planner.Contents() == old(planner.Contents())
      ensures queued ==> exists g: Geometry ::
                && GeometryOf(g, Delta(old(planner.position), StepsOf(target, scale), scale), old(previousUnit),
                              previousUnit, settings, r)
                && planner.Contents() == Appended(old(planner.Contents()), StepsOf(target, scale), g)
    {
      var steps := StepsOf(target, scale);
      if steps == planner.position {
        queued := planner.QueueMove(steps, Geometry(0.0, 0.0, 0.0, 0.0));
        return;
      }
      var d := Delta(planner.position, steps, scale);
      SomewhereElse(planner.position, steps, scale);
      var unit := new real[3](i requires 0 <= i < 3 => d[i]);
      assert unit[..] == d;
      var g := G.Geometry(unit, previousUnit, settings, r.rate, r.feedPercent, r.rapidPercent, r.fixed, root);
      assert GeometryOf(g, d, previousUnit, unit[..], settings, r);
      queued := planner.QueueMove(steps, g);
      previousUnit := unit[..];
    }
  }
}
