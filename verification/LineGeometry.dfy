/**
 What the planner computes of a straight move from its direction: length, the acceleration and rate that
 overload no axis, the nominal speed, and the speed at which the junction with the move before is taken.
 */
module LineGeometry {
  import opened Blocks
  import opened Profile
  import opened Reals
  import PlannerQueue

  const SOME_LARGE_VALUE := 100000000000000000000000000000000000000.0

  function SumOfSquares(v: seq<real>): real {
    if v == [] then 0.0 else SumOfSquares(v[..|v| - 1]) + Sqr(v[|v| - 1])
  }

  lemma SqrPositive(x: real)
    ensures x != 0.0 ==> 0.0 < Sqr(x)
  {
    assert Sqr(0.0) == 0.0 && Sqr(-x) == Sqr(x);
    if x < 0.0 {
      SqrStrict(0.0, -x);
    } else if 0.0 < x {
      SqrStrict(0.0, x);
    }
  }

  lemma SqrProduct(x: real, f: real)
    ensures Sqr(x * f) == Sqr(x) * (f * f)
  {
    var g := f * f;
    assert (x * f) * (x * f) == (x * x) * g;
  }

  lemma {:induction false} SumNonNegative(v: seq<real>, i: nat)
    requires i <= |v|
    ensures 0.0 <= SumOfSquares(v)
    ensures forall j :: 0 <= j < |v| && v[j] != 0.0 ==> 0.0 < SumOfSquares(v)
  {
    if v != [] {
      var w, x := v[..|v| - 1], v[|v| - 1];
      SumNonNegative(w, 0);
      SqrNonNegative(x);
      SqrPositive(x);
      forall j | 0 <= j < |v| && v[j] != 0.0
        ensures 0.0 < SumOfSquares(v)
      {
        if j < |w| {
          assert w[j] != 0.0;
        }
      }
    }
  }

  /** Every element of a vector multiplied by a factor. */
  function ScaledBy(v: seq<real>, f: real): (r: seq<real>)
    ensures |r| == |v|
  {
    seq(|v|, i requires 0 <= i < |v| => v[i] * f)
  }

  /** A sum of squares after every element has been multiplied by a factor. */
  function Stretched(s: real, f: real): real {
    s * (f * f)
  }

  lemma StretchedSum(s: real, x: real, f: real)
    ensures Stretched(s, f) + Sqr(x * f) == Stretched(s + Sqr(x), f)
    ensures Stretched(0.0, f) == 0.0
  {
    var g := f * f;
    SqrProduct(x, f);
    assert (s + Sqr(x)) * g == s * g + Sqr(x) * g;
  }

  lemma ScaledPrefix(v: seq<real>, f: real, n: nat)
    requires n <= |v|
    ensures ScaledBy(v, f)[..n] == ScaledBy(v[..n], f)
  {
    forall i | 0 <= i < n
      ensures ScaledBy(v, f)[..n][i] == ScaledBy(v[..n], f)[i]
    {
      assert v[..n][i] == v[i];
    }
  }

  lemma {:induction false} ScaledSum(v: seq<real>, f: real)
    ensures SumOfSquares(ScaledBy(v, f)) == Stretched(SumOfSquares(v), f)
  {
    if v == [] {
      StretchedSum(0.0, 0.0, f);
    } else {
      var n := |v| - 1;
      ScaledSum(v[..n], f);
      ScaledPrefix(v, f, n);
      StretchedSum(SumOfSquares(v[..n]), v[n], f);
    }
  }

  /** Turns a vector that is not zero into one of length 1 in the same direction, and returns its length. */
  method ConvertDeltaVectorToUnitVector(v: array<real>, root: real -> real) returns (magnitude: real)
    requires SquareRoot(root) && exists i :: 0 <= i < v.Length && v[i] != 0.0
    modifies v
    ensures 0.0 < magnitude && Sqr(magnitude) == SumOfSquares(old(v[..]))
    ensures v[..] == ScaledBy(old(v[..]), 1.0 / magnitude)
    ensures SumOfSquares(v[..]) == 1.0
  {
    ghost var was := v[..];
    var sum := 0.0;
    var i := 0;
    while i < v.Length
      invariant 0 <= i <= v.Length && v[..] == was
      invariant sum == SumOfSquares(was[..i])
    {
      assert was[..i + 1][..i] == was[..i];
      if v[i] != 0.0 {
        sum := sum + v[i] * v[i];
      }
      i := i + 1;
    }
    assert was[..i] == was;
    SumNonNegative(was, 0);
    magnitude := RootOf(root, sum);
    assert 0.0 <= magnitude && Sqr(magnitude) == sum;
    SpeedsCompare(magnitude, 0.0);
    ScaleInPlace(v, 1.0 / magnitude);
    ScaledSum(was, 1.0 / magnitude);
    UnitFactor(magnitude);
  }

  lemma UnitFactor(m: real)
    requires m != 0.0
    ensures Stretched(Sqr(m), 1.0 / m) == 1.0
  {
    var i := 1.0 / m;
    assert m * i == 1.0;
    assert Sqr(m) * (i * i) == (m * i) * (m * i);
  }

  method ScaleInPlace(v: array<real>, f: real)
    modifies v
    ensures v[..] == ScaledBy(old(v[..]), f)
  {
    ghost var was := v[..];
    var i := 0;
    while i < v.Length
      invariant 0 <= i <= v.Length
      invariant forall j :: 0 <= j < i ==> v[j] == ScaledBy(was, f)[j]
      invariant forall j :: i <= j < v.Length ==> v[j] == was[j]
    {
      v[i] := v[i] * f;
      i := i + 1;
    }
  }

  /** An axis that gets the share `u` of `value` stays within its maximum. */
  predicate Bears(value: real, m: real, u: real) {
    value * Magnitude(u) <= Magnitude(m)
  }

  /** No axis gets more of `value` along the direction `unit` than its maximum. */
  predicate Within(value: real, max: seq<real>, unit: seq<real>)
    requires |max| == |unit|
  {
    forall i :: 0 <= i < |unit| ==> Bears(value, max[i], unit[i])
  }

  lemma BearsLess(less: real, value: real, m: real, u: real)
    requires Bears(value, m, u) && less <= value
    ensures Bears(less, m, u)
  {
    ScaleMonotone(less, value, Magnitude(u));
  }

  lemma ShareOfAxis(m: real, u: real, value: real)
    requires 0.0 < u
    ensures value <= m / u <==> value * u <= m
    ensures m / u <= value <==> m <= value * u
  {
    var q := m / u;
    assert q * u == m;
    ScaleMonotone(if value <= q then value else q, if value <= q then q else value, u);
    var d := q - value;
    assert d * u == q * u - value * u;
    assert d != 0.0 ==> d * u != 0.0;
  }

  lemma QuotientMagnitude(x: real, u: real)
    requires u != 0.0
    ensures Magnitude(x / u) == Magnitude(x) / Magnitude(u)
  {
    var q := x / u;
    assert q * u == x;
    MagnitudeProduct(q, u);
    ShareOfAxis(Magnitude(x), Magnitude(u), Magnitude(q));
  }

  lemma MagnitudeProduct(x: real, y: real)
    ensures Magnitude(x * y) == Magnitude(x) * Magnitude(y)
  {
    var m, n := Magnitude(x), Magnitude(y);
    assert 0.0 <= m * n;
    assert x * y == m * n || x * y == -(m * n);
  }

  /** The greatest value, up to a very large one, of which no axis gets more than its maximum. */
  ghost predicate IsLimit(limit: real, max: seq<real>, unit: seq<real>)
    requires |max| == |unit|
  {
    && limit <= SOME_LARGE_VALUE && Within(limit, max, unit)
    && forall value: real :: value <= SOME_LARGE_VALUE && Within(value, max, unit) ==> value <= limit
  }

  method LimitValueByAxisMaximum(max: seq<real>, unit: seq<real>) returns (limit: real)
    requires |max| == |unit|
    ensures IsLimit(limit, max, unit)
    ensures (forall i :: 0 <= i < |max| ==> max[i] != 0.0) ==> 0.0 < limit
  {
    limit := SOME_LARGE_VALUE;
    var i := 0;
    while i < |unit|
      invariant 0 <= i <= |unit| && limit <= SOME_LARGE_VALUE
      invariant forall j :: 0 <= j < i ==> Bears(limit, max[j], unit[j])
      invariant forall value: real :: value <= SOME_LARGE_VALUE && Within(value, max, unit) ==> value <= limit
      invariant (forall i :: 0 <= i < |max| ==> max[i] != 0.0) ==> 0.0 < limit
    {
      limit := LimitByAxis(limit, max, unit, i);
      i := i + 1;
    }
  }

  /** The limit lowered, if need be, to what axis `i` allows. */
  method LimitByAxis(limit0: real, max: seq<real>, unit: seq<real>, i: nat) returns (limit: real)
    requires |max| == |unit| && i < |unit|
    ensures limit <= limit0 && Bears(limit, max[i], unit[i])
    ensures forall j :: 0 <= j < |unit| && Bears(limit0, max[j], unit[j]) ==> Bears(limit, max[j], unit[j])
    ensures forall value: real :: Within(value, max, unit) && value <= limit0 ==> value <= limit
    ensures max[i] != 0.0 && 0.0 < limit0 ==> 0.0 < limit
  {
    limit := limit0;
    if unit[i] != 0.0 {
      var share := Magnitude(max[i] / unit[i]);
      QuotientMagnitude(max[i], unit[i]);
      if share < limit {
        limit := share;
      }
      AxisAllows(max[i], unit[i], limit);
      forall value: real | Within(value, max, unit) && value <= limit0
        ensures value <= limit
      {
        assert Bears(value, max[i], unit[i]);
        AxisAllows(max[i], unit[i], value);
      }
    }
    forall j | 0 <= j < |unit| && Bears(limit0, max[j], unit[j])
      ensures Bears(limit, max[j], unit[j])
    {
      BearsLess(limit, limit0, max[j], unit[j]);
    }
  }

  lemma AxisAllows(m: real, u: real, value: real)
    requires u != 0.0
    ensures value <= Magnitude(m) / Magnitude(u) <==> Bears(value, m, u)
    ensures m != 0.0 ==> 0.0 < Magnitude(m) / Magnitude(u)
  {
    ShareOfAxis(Magnitude(m), Magnitude(u), value);
    ShareOfAxis(Magnitude(m), Magnitude(u), 0.0);
  }

  // ---------------------------------------------------------------------------------------------
  // Speeds

  /** How the rate of a move is given. */
  datatype Rate = Rapid | Feed(rate: real) | Inverse(rate: real)

  /** The rate of a move to be made `f` times a minute. */
  function PerMove(f: real, millimeters: real): real {
    f * millimeters
  }

  function Percent(x: real, percent: real): real {
    x * (0.01 * percent)
  }

  /** The nominal speed under the overrides in force: the programmed rate, within what the axes allow. */
  function NominalSpeed(
      rate: Rate, millimeters: real, rapidRate: real, feedPercent: real, rapidPercent: real, fixed: bool): (v: real)
    ensures PlannerQueue.MINIMUM_FEED_RATE <= v
    ensures !rate.Rapid? && v != PlannerQueue.MINIMUM_FEED_RATE ==> v <= rapidRate
  {
    var programmed := match rate case Rapid => rapidRate case Feed(f) => f case Inverse(f) => PerMove(f, millimeters);
    var v :=
      if rate.Rapid? then Percent(programmed, rapidPercent)
      else
        var overridden := if fixed then programmed else Percent(programmed, feedPercent);
        if overridden > rapidRate then rapidRate else overridden;
    if v > PlannerQueue.MINIMUM_FEED_RATE then v else PlannerQueue.MINIMUM_FEED_RATE
  }

  /**
   Which override bears on which kind of move: that of the feed on a programmed rate, and on none that is fixed; that of
   the rapids on rapid moves alone. An inverse time rate is that of as many moves a minute.
   */
  lemma OverridesApply(
      f: real, mm: real, rapidRate: real, feed: real, rapid: real, otherFeed: real, otherRapid: real, fixed: bool)
    ensures NominalSpeed(Feed(f), mm, rapidRate, feed, rapid, false)
         == NominalSpeed(Feed(Percent(f, feed)), mm, rapidRate, otherFeed, otherRapid, true)
    ensures NominalSpeed(Feed(f), mm, rapidRate, feed, rapid, true)
         == NominalSpeed(Feed(f), mm, rapidRate, 100.0, otherRapid, false)
    ensures NominalSpeed(Inverse(f), mm, rapidRate, feed, rapid, fixed)
         == NominalSpeed(Feed(PerMove(f, mm)), mm, rapidRate, feed, otherRapid, fixed)
    ensures NominalSpeed(Rapid, mm, rapidRate, feed, rapid, fixed)
         == NominalSpeed(Rapid, mm, rapidRate, otherFeed, rapid, !fixed)
    ensures NominalSpeed(Rapid, mm, rapidRate, feed, rapid, fixed)
         == NominalSpeed(Rapid, mm, Percent(rapidRate, rapid), feed, 100.0, fixed)
    ensures PlannerQueue.MINIMUM_FEED_RATE <= f <= rapidRate ==>
              NominalSpeed(Feed(f), mm, rapidRate, feed, rapid, true) == f
    ensures PlannerQueue.MINIMUM_FEED_RATE <= rapidRate ==>
              NominalSpeed(Rapid, mm, rapidRate, feed, 100.0, fixed) == rapidRate
  {
    WholePercent(f);
    WholePercent(rapidRate);
    WholePercent(Percent(rapidRate, rapid));
    hide Percent, PerMove;
  }

  lemma WholePercent(x: real)
    ensures Percent(x, 100.0) == x
  {
  }

  function Dot(v: seq<real>, w: seq<real>): real
    requires |v| == |w|
  {
    if v == [] then 0.0 else Dot(v[..|v| - 1], w[..|w| - 1]) + v[|v| - 1] * w[|w| - 1]
  }

  lemma DotNext(v: seq<real>, w: seq<real>, i: nat)
    requires i < |v| == |w|
    ensures Dot(v[..i + 1], w[..i + 1]) == Dot(v[..i], w[..i]) + v[i] * w[i]
  {
    assert v[..i + 1][..i] == v[..i] && w[..i + 1][..i] == w[..i];
  }

  lemma {:induction false} DotSelf(v: seq<real>)
    ensures Dot(v, v) == SumOfSquares(v)
  {
    if v != [] {
      DotSelf(v[..|v| - 1]);
    }
  }

  function Difference(v: seq<real>, w: seq<real>): (d: seq<real>)
    requires |v| == |w|
    ensures |d| == |v|
  {
    seq(|v|, i requires 0 <= i < |v| => v[i] - w[i])
  }

  /** `towards` is `v` scaled to length 1, in the same direction. */
  ghost predicate IsUnitOf(towards: seq<real>, v: seq<real>) {
    SumOfSquares(towards) == 1.0 && exists f: real :: 0.0 < f && towards == ScaledBy(v, f)
  }

  /** The sine of half the angle a cosine is of. */
  predicate IsHalfSine(sine: real, cosTheta: real) {
    0.0 <= sine < 1.0 && Sqr(sine) == 0.5 * (1.0 - cosTheta)
  }

  function CircleSqr(a: real, deviation: real, sine: real): real
    requires sine < 1.0
  {
    a * deviation * sine / (1.0 - sine)
  }

  /**
   The squared speed on a circle that touches both directions and passes their corner at the set deviation, with
   the acceleration the axes allow along the difference of the directions.
   */
  ghost predicate OnCircle(
      v: real, a: real, sine: real, towards: seq<real>, change: seq<real>, acceleration: seq<real>, deviation: real,
      cosTheta: real)
    requires |change| == |acceleration|
  {
    && |towards| == |change| && IsUnitOf(towards, change)
    && IsHalfSine(sine, cosTheta)
    && IsLimit(a, acceleration, towards)
    && v == CircleSqr(a, deviation, sine)
  }

  /**
   The squared speed of a junction: none for a reversal, no limit for a straight line, and otherwise that of the
   circle.
   */
  ghost predicate IsJunction(v: real, previous: seq<real>, unit: seq<real>, acceleration: seq<real>, deviation: real)
    requires |previous| == |unit| == |acceleration|
  {
    var cosTheta, change := -Dot(previous, unit), Difference(unit, previous);
    if cosTheta > 0.999999 then v == 0.0
    else if cosTheta < -0.999999 then v == SOME_LARGE_VALUE
    else exists a: real, sine: real, towards: seq<real> ::
           OnCircle(v, a, sine, towards, change, acceleration, deviation, cosTheta)
  }

  /** There is one direction, */
  lemma UnitIsUnique(t: seq<real>, t': seq<real>, v: seq<real>)
    requires IsUnitOf(t, v) && IsUnitOf(t', v)
    ensures t == t'
  {
    var f: real :| 0.0 < f && t == ScaledBy(v, f);
    var f': real :| 0.0 < f' && t' == ScaledBy(v, f');
    ScaledSum(v, f);
    ScaledSum(v, f');
    SameFactor(SumOfSquares(v), f, f');
  }

  lemma SameFactor(s: real, f: real, f': real)
    requires 0.0 < f && 0.0 < f' && Stretched(s, f) == 1.0 == Stretched(s, f')
    ensures f == f'
  {
    var g, g' := f * f, f' * f';
    assert s * (g - g') == s * g - s * g' == 0.0;
    assert s != 0.0;
    assert g == g';
    assert (f - f') * (f + f') == g - g';
  }

  /** one greatest value along it, */
  lemma LimitIsUnique(a: real, a': real, max: seq<real>, unit: seq<real>)
    requires |max| == |unit| && IsLimit(a, max, unit) && IsLimit(a', max, unit)
    ensures a == a'
  {
  }

  /** one sine, */
  lemma HalfSineIsUnique(sine: real, sine': real, cosTheta: real)
    requires IsHalfSine(sine, cosTheta) && IsHalfSine(sine', cosTheta)
    ensures sine == sine'
  {
    SpeedsCompare(sine, sine');
    SpeedsCompare(sine', sine);
  }

  /** and so the speed of a junction is determined by the two directions, the accelerations and the deviation. */
  lemma JunctionIsUnique(
      v: real, v': real, previous: seq<real>, unit: seq<real>, acceleration: seq<real>, deviation: real)
    requires |previous| == |unit| == |acceleration|
    requires IsJunction(v, previous, unit, acceleration, deviation)
    requires IsJunction(v', previous, unit, acceleration, deviation)
    ensures v == v'
  {
    var cosTheta, change := -Dot(previous, unit), Difference(unit, previous);
    if -0.999999 <= cosTheta <= 0.999999 {
      var a: real, sine: real, towards: seq<real> :|
        OnCircle(v, a, sine, towards, change, acceleration, deviation, cosTheta);
      var a': real, sine': real, towards': seq<real> :|
        OnCircle(v', a', sine', towards', change, acceleration, deviation, cosTheta);
      UnitIsUnique(towards, towards', change);
      LimitIsUnique(a, a', acceleration, towards);
      HalfSineIsUnique(sine, sine', cosTheta);
    }
  }

  method JunctionSpeedSqr(
      previous: seq<real>, unit: seq<real>, acceleration: seq<real>, deviation: real, root: real -> real)
    returns (v: real)
    requires SquareRoot(root) && |previous| == |unit| == |acceleration| && SumOfSquares(unit) == 1.0 && 0.0 <= deviation
    requires forall i :: 0 <= i < |acceleration| ==> acceleration[i] != 0.0
    ensures 0.0 <= v && IsJunction(v, previous, unit, acceleration, deviation)
  {
    var cosTheta, junction := DirectionChange(previous, unit);
    if cosTheta > 0.999999 {
      v := 0.0;
    } else if cosTheta < -0.999999 {
      v := SOME_LARGE_VALUE;
    } else {
      Corner(previous, unit);
      ghost var k :| 0 <= k < |unit| && unit[k] - previous[k] != 0.0;
      assert junction[..][k] != 0.0;
      v := CornerSpeedSqr(junction, acceleration, deviation, cosTheta, root);
    }
  }

  /** The cosine of the angle at the junction, and the difference of the directions. */
  method DirectionChange(previous: seq<real>, unit: seq<real>) returns (cosTheta: real, junction: array<real>)
    requires |previous| == |unit|
    ensures cosTheta == -Dot(previous, unit) && fresh(junction) && junction[..] == Difference(unit, previous)
  {
    cosTheta := 0.0;
    junction := new real[|unit|];
    var i := 0;
    while i < |unit|
      invariant 0 <= i <= |unit|
      invariant cosTheta == -Dot(previous[..i], unit[..i])
      invariant forall j :: 0 <= j < i ==> junction[j] == unit[j] - previous[j]
    {
      DotNext(previous, unit, i);
      cosTheta := cosTheta - previous[i] * unit[i];
      junction[i] := unit[i] - previous[i];
      i := i + 1;
    }
    assert previous[..i] == previous && unit[..i] == unit;
  }

  /** Where the direction changes, the difference of the directions is not zero. */
  lemma Corner(previous: seq<real>, unit: seq<real>)
    requires |previous| == |unit| && SumOfSquares(unit) == 1.0 && -0.999999 <= -Dot(previous, unit)
    ensures exists k :: 0 <= k < |unit| && unit[k] - previous[k] != 0.0
  {
    if previous == unit {
      DotSelf(unit);
      assert false;
    }
    var k :| 0 <= k < |unit| && previous[k] != unit[k];
    assert unit[k] - previous[k] != 0.0;
  }

  method CornerSpeedSqr(
      junction: array<real>, acceleration: seq<real>, deviation: real, cosTheta: real, root: real -> real)
    returns (v: real)
    requires SquareRoot(root) && |acceleration| == junction.Length
    requires 0.0 <= deviation && -0.999999 <= cosTheta <= 0.999999
    requires exists k :: 0 <= k < junction.Length && junction[k] != 0.0
    requires forall i :: 0 <= i < |acceleration| ==> acceleration[i] != 0.0
    modifies junction
    ensures 0.0 <= v
    ensures exists a: real, sine: real, towards: seq<real> ::
              OnCircle(v, a, sine, towards, old(junction[..]), acceleration, deviation, cosTheta)
  {
    ghost var change := junction[..];
    var length := ConvertDeltaVectorToUnitVector(junction, root);
    var a := LimitValueByAxisMaximum(acceleration, junction[..]);
    var sine := HalfAngleSine(cosTheta, root);
    v := CircleSqr(a, deviation, sine);
    NotNegative(a, deviation, sine);
    if v < 0.0 {
      v := 0.0;
    }
    ShareOfAxis(1.0, length, 0.0);
    assert IsUnitOf(junction[..], change);
    assert OnCircle(v, a, sine, junction[..], change, acceleration, deviation, cosTheta);
  }

  lemma NotNegative(a: real, deviation: real, sine: real)
    requires 0.0 <= a && 0.0 <= deviation && 0.0 <= sine < 1.0
    ensures 0.0 <= CircleSqr(a, deviation, sine)
  {
    var x := a * deviation;
    assert 0.0 <= x;
    var m, u := x * sine, 1.0 - sine;
    assert 0.0 <= m;
    ShareOfAxis(m, u, 0.0);
  }

  method HalfAngleSine(cosTheta: real, root: real -> real) returns (sine: real)
    requires SquareRoot(root) && -0.999999 <= cosTheta <= 0.999999
    ensures IsHalfSine(sine, cosTheta)
  {
    var halfSqr := 0.5 * (1.0 - cosTheta);
    sine := RootOf(root, halfSqr);
    assert 0.0 <= sine && Sqr(sine) == halfSqr < 1.0 == Sqr(1.0);
    SpeedsCompare(sine, 1.0);
  }

  /** The settings that bear on a move, axis by axis, and the direction of the move before. */
  datatype Settings = Settings(acceleration: seq<real>, maxRate: seq<real>, deviation: real)

  /**
   The geometry of a move from its direction in millimetres. It is what the planner demands, and its
   acceleration is the greatest that accelerates no axis beyond its setting.
   */
  method Geometry(
      delta: array<real>, previous: seq<real>, settings: Settings, rate: Rate, feedPercent: real, rapidPercent: real,
      fixed: bool, root: real -> real)
    returns (g: PlannerQueue.Geometry)
    requires SquareRoot(root) && exists i :: 0 <= i < delta.Length && delta[i] != 0.0
    requires |previous| == delta.Length == |settings.acceleration| == |settings.maxRate| && 0.0 <= settings.deviation
    requires forall i :: 0 <= i < delta.Length ==> 0.0 < settings.acceleration[i] && 0.0 < settings.maxRate[i]
    modifies delta
    ensures PlannerQueue.Physical(g)
    ensures SumOfSquares(delta[..]) == 1.0 && delta[..] == ScaledBy(old(delta[..]), 1.0 / g.millimeters)
    ensures Sqr(g.millimeters) == SumOfSquares(old(delta[..]))
    ensures IsLimit(g.acceleration, settings.acceleration, delta[..])
    ensures exists rapidRate: real ::
              && IsLimit(rapidRate, settings.maxRate, delta[..])
              && g.nominalSpeed == NominalSpeed(rate, g.millimeters, rapidRate, feedPercent, rapidPercent, fixed)
    ensures IsJunction(g.junctionSqr, previous, delta[..], settings.acceleration, settings.deviation)
  {
    var millimeters := ConvertDeltaVectorToUnitVector(delta, root);
    var acceleration := LimitValueByAxisMaximum(settings.acceleration, delta[..]);
    var rapidRate := LimitValueByAxisMaximum(settings.maxRate, delta[..]);
    var junctionSqr := JunctionSpeedSqr(previous, delta[..], settings.acceleration, settings.deviation, root);
    var nominalSpeed := NominalSpeed(rate, millimeters, rapidRate, feedPercent, rapidPercent, fixed);
    g := PlannerQueue.Geometry(millimeters, acceleration, nominalSpeed, junctionSqr);
    assert IsLimit(rapidRate, settings.maxRate, delta[..]);
  }
}
