/**
 Arcs as strings of short lines. The radius vector is turned by an approximate rotation, and put right with
 the exact one after at most twelve turns.
 */
module Arc {
  import opened Reals

  /** A vector in the plane of the arc. */
  datatype Vector = Vector(a: real, b: real)

  /** A line to issue: its end in the plane of the arc, and along the axis perpendicular to it. */
  datatype Line = Line(end: Vector, linear: real)

  const N_ARC_CORRECTION := 12

  function SquaredLength(v: Vector): real {
    v.a * v.a + v.b * v.b
  }

  /** A turn, given by the cosine and the sine of its angle or what stands for them. */
  datatype Rotation = Rotation(cosine: real, sine: real)

  function Turned(v: Vector, r: Rotation): Vector {
    Vector(v.a * r.cosine - v.b * r.sine, v.a * r.sine + v.b * r.cosine)
  }

  function Plus(v: Vector, w: Vector): Vector {
    Vector(v.a + w.a, v.b + w.b)
  }

  function Negated(v: Vector): Vector {
    Vector(-v.a, -v.b)
  }

  /** Turning multiplies the squared length by that of the turn itself. */
  lemma TurnScales(v: Vector, r: Rotation)
    ensures SquaredLength(Turned(v, r)) == SquaredLength(v) * SquaredLength(Vector(r.cosine, r.sine))
  {
  }

  // ---------------------------------------------------------------------------------------------
  // The approximate rotation

  function CosineOf(theta: real): real {
    0.5 * (2.0 - theta * theta)
  }

  /** The third order approximation, `sixth` standing for one sixth. */
  function SineOf(theta: real, sixth: real): real {
    theta * sixth * (2.0 - theta * theta + 4.0)
  }

  /** These are the third order approximations of cosine and sine, in the form that takes fewest multiplications. */
  lemma ThirdOrder(theta: real)
    ensures CosineOf(theta) == 1.0 - theta * theta / 2.0
    ensures SineOf(theta, 1.0 / 6.0) == theta - theta * theta * theta / 6.0
  {
    assert theta * (1.0 / 6.0) * (6.0 - theta * theta) == theta - theta * theta * theta / 6.0;
  }

  const SIXTH := 0.16666667

  function Factor(theta: real, sixth: real): real {
    SquaredLength(Vector(CosineOf(theta), SineOf(theta, sixth)))
  }

  /** What one turn does to the squared radius with a true sixth, told by the square `q` of the angle. */
  function TrueFactor(q: real): real {
    1.0 - q * q / 12.0 + q * q * q / 36.0
  }

  /** What weight an error in the square of the sixth has. */
  function Weight(q: real): real {
    q * ((6.0 - q) * (6.0 - q))
  }

  /** Exactly what one turn does to the squared radius, with a true sixth and with any constant in its place. */
  lemma FactorIs(theta: real, sixth: real)
    ensures Factor(theta, 1.0 / 6.0) == TrueFactor(theta * theta)
    ensures Factor(theta, sixth) == TrueFactor(theta * theta) + (sixth * sixth - 1.0 / 36.0) * Weight(theta * theta)
  {
    var q, s := theta * theta, 6.0 - theta * theta;
    assert SineOf(theta, sixth) == theta * sixth * s;
    assert SineOf(theta, sixth) * SineOf(theta, sixth) == sixth * sixth * (q * (s * s));
    assert SineOf(theta, 1.0 / 6.0) * SineOf(theta, 1.0 / 6.0) == 1.0 / 36.0 * (q * (s * s));
    assert CosineOf(theta) * CosineOf(theta) == 1.0 - q + 0.25 * (q * q);
    assert q * (s * s) == 36.0 * q - 12.0 * (q * q) + q * q * q;
  }

  /** The constant is rounded up in its eighth decimal; what that can add to the factor for an angle up to 1. */
  const ROUNDING := 0.00000005

  /** Fourth power. */
  function Fourth(theta: real): real {
    Square(theta * theta)
  }

  function Square(x: real): real {
    x * x
  }

  lemma FactorBounds(theta: real)
    requires -1.0 <= theta <= 1.0
    ensures 1.0 - Fourth(theta) / 12.0 <= Factor(theta, SIXTH) <= 1.0 + ROUNDING
    ensures 0.0 <= Fourth(theta) <= 1.0
  {
    SquareBounds(theta);
    FactorIs(theta, SIXTH);
    BoundsFor(theta * theta, Factor(theta, SIXTH));
  }

  /** What the rounded constant adds to the factor and the last term of the series, per square `q` of the angle. */
  function Lengthening(q: real): real {
    (SIXTH * SIXTH - 1.0 / 36.0) * ((6.0 - q) * (6.0 - q)) + q * q / 36.0
  }

  lemma FactorGain(q: real)
    ensures TrueFactor(q) + (SIXTH * SIXTH - 1.0 / 36.0) * Weight(q) == 1.0 + q * (Lengthening(q) - q / 12.0)
  {
    var e, s := SIXTH * SIXTH - 1.0 / 36.0, (6.0 - q) * (6.0 - q);
    assert e * (q * s) == q * (e * s);
    assert q * (q * q / 36.0) == q * q * q / 36.0;
    assert q * (e * s + q * q / 36.0 - q / 12.0) == q * (e * s) + q * (q * q / 36.0) - q * (q / 12.0);
  }

  /** A turn does not lengthen the radius exactly when it is none, or what is added is made up for by the series. */
  lemma TurnLengthens(theta: real)
    ensures Factor(theta, SIXTH) <= 1.0 <==> theta == 0.0 || Lengthening(Square(theta)) <= Square(theta) / 12.0
  {
    FactorIs(theta, SIXTH);
    NoSquareBelowZero(theta);
    GainSign(Square(theta), Factor(theta, SIXTH));
  }

  lemma GainSign(q: real, factor: real)
    requires 0.0 <= q && factor == TrueFactor(q) + (SIXTH * SIXTH - 1.0 / 36.0) * Weight(q)
    ensures factor <= 1.0 <==> q == 0.0 || Lengthening(q) <= q / 12.0
  {
    FactorGain(q);
    SignOfProduct(q, Lengthening(q) - q / 12.0);
  }

  lemma NoSquareBelowZero(x: real)
    ensures 0.0 <= Square(x) && (Square(x) == 0.0 <==> x == 0.0)
  {
    if x == 0.0 {
      ZeroSquared(x);
    } else {
      NotZeroSquared(x);
    }
  }

  lemma ZeroSquared(x: real)
    requires x == 0.0
    ensures Square(x) == 0.0
  {
  }

  lemma NotZeroSquared(x: real)
    requires x != 0.0
    ensures 0.0 < Square(x)
  {
    var m := -x;
    if 0.0 < x {
      TimesPositive(x, x);
    } else {
      TimesPositive(m, m);
      assert Times(m, m) == Square(x);
    }
  }

  lemma SignOfProduct(q: real, d: real)
    requires 0.0 <= q
    ensures q * d <= 0.0 <==> q == 0.0 || d <= 0.0
  {
    if 0.0 < q && 0.0 < d {
      assert 0.0 < q * d;
    } else if d <= 0.0 {
      ScaleMonotone(d, 0.0, q);
    }
  }

  /** That is so for angles from 0.0007 to 1, and not so for angles up to 0.00069 other than none. */
  lemma SmallTurnsLengthen(theta: real)
    ensures 0.0007 <= Magnitude(theta) <= 1.0 ==> Factor(theta, SIXTH) <= 1.0
    ensures 0.0 < Magnitude(theta) <= 0.00069 ==> 1.0 < Factor(theta, SIXTH)
  {
    var q, m := Square(theta), Magnitude(theta);
    assert q == Square(m);
    TurnLengthens(theta);
    if 0.0007 <= m <= 1.0 {
      SquaresOrdered(0.0007, m);
      SquaresOrdered(m, 1.0);
      MadeUp(q);
    } else if 0.0 < m <= 0.00069 {
      SquaresOrdered(m, 0.00069);
      assert 36.0 - 12.0 * q <= (6.0 - q) * (6.0 - q);
    }
  }

  lemma SquaresOrdered(x: real, y: real)
    requires 0.0 <= x <= y
    ensures 0.0 <= Square(x) <= Square(y)
  {
    ScaleMonotone(x, y, x);
    ScaleMonotone(x, y, y);
  }

  lemma MadeUp(q: real)
    requires 0.00000049 <= q <= 1.0
    ensures Lengthening(q) <= q / 12.0
  {
    Sagging(q);
    WeightPart(q);
  }

  /** Between 0.00000049 and 1 a square is below the chord. */
  lemma Sagging(q: real)
    requires 0.00000049 <= q <= 1.0
    ensures q * q <= q + 0.00000049 * q - 0.00000049
  {
    var d, e := q - 0.00000049, 1.0 - q;
    NotNegative(d, e);
    assert d * e == q - q * q - 0.00000049 + 0.00000049 * q;
  }

  lemma WeightPart(q: real)
    requires 0.0 <= q <= 1.0
    ensures (SIXTH * SIXTH - 1.0 / 36.0) * ((6.0 - q) * (6.0 - q)) <= 0.0000000011112 * 36.0
  {
    var s, d := (6.0 - q) * (6.0 - q), 12.0 - q;
    NotNegative(q, d);
    assert s == 36.0 - q * d;
  }

  lemma BoundsFor(q: real, factor: real)
    requires 0.0 <= q <= 1.0 && factor == TrueFactor(q) + (SIXTH * SIXTH - 1.0 / 36.0) * Weight(q)
    ensures 1.0 - Square(q) / 12.0 <= factor <= 1.0 + ROUNDING
  {
    TermBounds(q);
    Excess(Weight(q));
  }

  /** What the rounded constant adds. */
  lemma Excess(w: real)
    requires 0.0 <= w <= 36.0
    ensures 0.0 <= (SIXTH * SIXTH - 1.0 / 36.0) * w <= ROUNDING
  {
    assert 0.0 <= SIXTH * SIXTH - 1.0 / 36.0 <= 0.00000000125;
  }

  lemma UnitProduct(x: real, y: real)
    requires 0.0 <= x <= 1.0 && 0.0 <= y <= 1.0
    ensures 0.0 <= x * y <= y
  {
    NotNegative(x, y);
    NotMore(x, y);
  }

  lemma SquareBounds(theta: real)
    requires -1.0 <= theta <= 1.0
    ensures 0.0 <= theta * theta <= 1.0
    ensures 0.0 <= Fourth(theta) <= 1.0
  {
    var t := if theta < 0.0 then -theta else theta;
    UnitProduct(t, t);
    assert t * t == theta * theta;
    UnitProduct(t * t, t * t);
  }

  lemma TermBounds(q: real)
    requires 0.0 <= q <= 1.0
    ensures 0.0 <= Weight(q) <= 36.0
    ensures 1.0 - Square(q) / 12.0 <= TrueFactor(q) <= 1.0
  {
    NoSquareBelowZero(q);
    PartOf(q, Square(q));
    InSquares(q);
    WeightBounds(q);
  }

  lemma PartOf(q: real, r: real)
    requires 0.0 <= q <= 1.0 && 0.0 <= r
    ensures 0.0 <= Times(q, r) <= r
  {
    NotNegative(q, r);
    NotMore(q, r);
  }

  /** The cube and the factor, told by the square. */
  lemma InSquares(q: real)
    ensures q * q * q == Times(q, Square(q))
    ensures TrueFactor(q) == 1.0 - Square(q) / 12.0 + Times(q, Square(q)) / 36.0
  {
  }

  /** The square of 6 - q is 36 - q (12 - q). */
  lemma WeightBounds(q: real)
    requires 0.0 <= q <= 1.0
    ensures 0.0 <= Weight(q) <= 36.0
  {
    var s, d := (6.0 - q) * (6.0 - q), 12.0 - q;
    NotNegative(q, d);
    assert s == 36.0 - q * d;
    NotNegative(6.0 - q, 6.0 - q);
    NotNegative(q, s);
    NotMore(q, s);
  }

  /** Bounds of the squared radius, relative to the exact one, after `count` uncorrected turns. */
  function LowFor(fourth: real, count: nat): real {
    1.0 - Times(count as real, fourth / 12.0)
  }

  function High(count: nat): real {
    1.0 + count as real * (2.0 * ROUNDING)
  }

  predicate InBand(v: Vector, fourth: real, count: nat, exact: real) {
    LowFor(fourth, count) * exact <= SquaredLength(v) <= High(count) * exact
  }

  /** One more turn widens the band by one step. */
  lemma TurnInBand(v: Vector, turn: Rotation, fourth: real, count: nat, exact: real)
    requires count < N_ARC_CORRECTION && 0.0 <= exact && InBand(v, fourth, count, exact)
    requires 0.0 <= fourth <= 1.0
    requires 1.0 - fourth / 12.0 <= SquaredLength(Vector(turn.cosine, turn.sine)) <= 1.0 + ROUNDING
    ensures InBand(Turned(v, turn), fourth, count + 1, exact)
  {
    TurnScales(v, turn);
    var factor := SquaredLength(Vector(turn.cosine, turn.sine));
    Widened(SquaredLength(v), SquaredLength(Turned(v, turn)), factor, fourth, count, exact);
  }

  lemma LowNext(fourth: real, count: nat)
    requires 0.0 <= fourth <= 1.0 && count < N_ARC_CORRECTION
    ensures LowFor(fourth, count + 1) == LowFor(fourth, count) - fourth / 12.0
    ensures 0.0 <= LowFor(fourth, count) <= 1.0
  {
    StepsNext(count as real, fourth / 12.0);
  }

  lemma StepsNext(k: real, x: real)
    requires 0.0 <= k <= 11.0 && 0.0 <= x <= 1.0 / 12.0
    ensures Times(k + 1.0, x) == Times(k, x) + x && 0.0 <= Times(k, x) <= 1.0
  {
    var d := 11.0 - k;
    NotNegative(k, x);
    NotNegative(d, x);
    assert (k + d) * x == k * x + d * x;
    assert Times(k + 1.0, x) == k * x + x;
  }

  lemma Widened(n: real, n': real, f: real, fourth: real, count: nat, exact: real)
    requires 0.0 <= fourth <= 1.0 && count < N_ARC_CORRECTION && 0.0 <= exact
    requires 1.0 - fourth / 12.0 <= f <= 1.0 + ROUNDING
    requires LowFor(fourth, count) * exact <= n <= High(count) * exact && n' == n * f
    ensures LowFor(fourth, count + 1) * exact <= n' <= High(count + 1) * exact
  {
    LowNext(fourth, count);
    LowFactor(LowFor(fourth, count), fourth / 12.0, f);
    Chain(n, LowFor(fourth, count), LowFor(fourth, count + 1), f, exact);
    HighStep(n, count, f, exact);
  }

  /** Shrinking by 1 - x takes away at most x of anything up to 1. */
  lemma LowFactor(low: real, x: real, f: real)
    requires 0.0 <= low <= 1.0 && 0.0 <= x <= 1.0 && 1.0 - x <= f
    ensures low - x <= f * low
  {
    var d := f - (1.0 - x);
    NotNegative(d, low);
    NotMore(low, x);
    assert f * low == low - low * x + d * low;
  }

  /** Bounds multiply. */
  lemma Chain(n: real, low: real, next: real, f: real, exact: real)
    requires low * exact <= n && 0.0 <= f && 0.0 <= exact && next <= f * low
    ensures next * exact <= n * f
  {
    var h, m := f * low, low * exact;
    ScaleMonotone(next, h, exact);
    ScaleMonotone(m, n, f);
    assert h * exact == m * f;
  }

  lemma ChainUp(n: real, high: real, next: real, f: real, exact: real)
    requires n <= high * exact && 0.0 <= f && 0.0 <= exact && f * high <= next
    ensures n * f <= next * exact
  {
    var h, m := f * high, high * exact;
    ScaleMonotone(h, next, exact);
    ScaleMonotone(n, m, f);
    assert h * exact == m * f;
  }

  lemma HighStep(n: real, count: nat, f: real, exact: real)
    requires count < N_ARC_CORRECTION && 0.0 <= f <= 1.0 + ROUNDING && 0.0 <= exact && n <= High(count) * exact
    ensures n * f <= High(count + 1) * exact
  {
    var h, u := High(count), 1.0 + ROUNDING;
    assert 1.0 <= h <= 2.0 && High(count + 1) == h + 2.0 * ROUNDING;
    ScaleMonotone(f, u, h);
    assert u * h == h + ROUNDING * h && ROUNDING * h <= 2.0 * ROUNDING;
    ChainUp(n, h, High(count + 1), f, exact);
  }

  lemma StepsLimit(k: real, x: real)
    requires 0.0 <= k <= 12.0 && 0.0 <= x
    ensures Times(k, x) <= 12.0 * x
  {
    var d := 12.0 - k;
    NotNegative(d, x);
    assert (k + d) * x == k * x + d * x;
  }

  lemma BandLimits(v: Vector, fourth: real, count: nat, exact: real)
    requires 0.0 <= fourth <= 1.0 && count <= N_ARC_CORRECTION && 0.0 <= exact && InBand(v, fourth, count, exact)
    ensures NearCircle(v, fourth, exact)
  {
    StepsLimit(count as real, fourth / 12.0);
    var low, high := 1.0 - fourth, 1.0 + 24.0 * ROUNDING;
    ScaleMonotone(low, LowFor(fourth, count), exact);
    ScaleMonotone(High(count), high, exact);
  }

  /**
   The squared distance from the centre is kept but for the fourth power of the angle of a segment below,
   and the rounding of the constant above.
   */
  predicate NearCircle(v: Vector, fourth: real, exact: real) {
    (1.0 - fourth) * exact <= SquaredLength(v) <= (1.0 + 24.0 * ROUNDING) * exact
  }

  // ---------------------------------------------------------------------------------------------
  // The arc

  /** All that is asked of the cosine and sine: they turn without changing the length. */
  ghost predicate Exact(rotations: nat -> Rotation) {
    forall i: nat :: SquaredLength(Vector(RotationOf(rotations, i).cosine, RotationOf(rotations, i).sine)) == 1.0
  }

  function RotationOf(rotations: nat -> Rotation, i: nat): Rotation {
    rotations(i)
  }

  /** The approximate turn by an angle. */
  function TurnBy(theta: real): Rotation {
    Rotation(CosineOf(theta), SineOf(theta, SIXTH))
  }

  /** The lines of an arc, without an abort: one per segment, and the last one to the target. */
  function LineCount(segments: nat): nat {
    if segments == 0 then 1 else segments
  }

  /** `k` even steps along an axis. */
  function Along(start: real, k: nat, step: real): real {
    start + k as real * step
  }

  /** How many turns were made at segment `i` since the radius vector was last put right. */
  function TurnsAt(i: nat): (n: nat)
    ensures n <= N_ARC_CORRECTION
  {
    i % (N_ARC_CORRECTION + 1)
  }

  lemma OneMoreTurn(i: nat)
    ensures TurnsAt(i + 1) == if TurnsAt(i) < N_ARC_CORRECTION then TurnsAt(i) + 1 else 0
    ensures TurnsAt(0) == 0
  {
  }

  /** The radius vector of segment `i` from that of the one before: put right at every thirteenth, else turned. */
  function NextRadius(v: Vector, offset: Vector, turn: Rotation, rotations: nat -> Rotation, i: nat): Vector {
    if TurnsAt(i) == 0 then Turned(Negated(offset), RotationOf(rotations, i)) else Turned(v, turn)
  }

  /** The radius vectors of the points of an arc. */
  ghost predicate Radii(radii: seq<Vector>, offset: Vector, turn: Rotation, rotations: nat -> Rotation) {
    && 0 < |radii| && radii[0] == Negated(offset)
    && forall i, j :: 0 <= i && j == i + 1 && j < |radii| ==>
         radii[j] == NextRadius(radii[i], offset, turn, rotations, j)
  }

  /** Which way `w` lies from `v`: positive if it is turned counterclockwise, by less than half a turn. */
  function Cross(v: Vector, w: Vector): real {
    v.a * w.b - v.b * w.a
  }

  function Dot(v: Vector, w: Vector): real {
    v.a * w.a + v.b * w.b
  }

  /** A turn has the cosine and the sine of its angle, counterclockwise if the sine is positive. */
  lemma TurnLeads(v: Vector, r: Rotation)
    ensures Cross(v, Turned(v, r)) == Times(SquaredLength(v), r.sine)
    ensures Dot(v, Turned(v, r)) == Times(SquaredLength(v), r.cosine)
  {
  }

  /** For small angles the approximate sine has the sign of the angle, and the cosine is positive. */
  lemma TurnSigns(theta: real)
    requires -1.0 <= theta <= 1.0
    ensures 0.0 < TurnBy(theta).sine <==> 0.0 < theta
    ensures TurnBy(theta).sine < 0.0 <==> theta < 0.0
    ensures 0.0 < TurnBy(theta).cosine
  {
    SquareBounds(theta);
    var weight := SIXTH * (6.0 - theta * theta);
    SineIs(theta);
    if 0.0 < theta {
      TimesPositive(theta, weight);
    } else if theta < 0.0 {
      TimesPositive(-theta, weight);
    }
  }

  lemma SineIs(theta: real)
    ensures var weight := SIXTH * (6.0 - theta * theta);
            TurnBy(theta).sine == Times(theta, weight) == -Times(-theta, weight)
  {
  }

  /**
   Each point of an arc lies from the one before it in the direction of the angle: counterclockwise if that is
   positive, clockwise if it is negative. A point that is put right is at its exact rotation from the start.
   */
  lemma ArcsTurnTheirWay(radii: seq<Vector>, offset: Vector, theta: real, rotations: nat -> Rotation, i: nat)
    requires -1.0 <= theta <= 1.0 && Radii(radii, offset, TurnBy(theta), rotations) && i + 1 < |radii|
    ensures if TurnsAt(i + 1) == 0 then
              Cross(radii[0], radii[i + 1]) == Times(SquaredLength(offset), RotationOf(rotations, i + 1).sine)
              && Dot(radii[0], radii[i + 1]) == Times(SquaredLength(offset), RotationOf(rotations, i + 1).cosine)
            else
              && (0.0 < theta && 0.0 < SquaredLength(radii[i]) ==> 0.0 < Cross(radii[i], radii[i + 1]))
              && (theta < 0.0 && 0.0 < SquaredLength(radii[i]) ==> Cross(radii[i], radii[i + 1]) < 0.0)
              && (0.0 < SquaredLength(radii[i]) ==> 0.0 < Dot(radii[i], radii[i + 1]))
  {
    var turn := TurnBy(theta);
    var j := i + 1;
    assert radii[j] == NextRadius(radii[i], offset, turn, rotations, j);
    TurnLeads(Negated(offset), RotationOf(rotations, j));
    assert SquaredLength(Negated(offset)) == SquaredLength(offset);
    hide Cross, Dot, Turned, TurnBy, TurnsAt, SquaredLength;
    TurnLeads(radii[i], turn);
    TurnSigns(theta);
    if 0.0 < SquaredLength(radii[i]) {
      TimesSigns(SquaredLength(radii[i]), turn.sine);
      TimesSigns(SquaredLength(radii[i]), turn.cosine);
    }
  }

  lemma TimesSigns(x: real, y: real)
    requires 0.0 < x
    ensures 0.0 < y ==> 0.0 < Times(x, y)
    ensures y < 0.0 ==> Times(x, y) < 0.0
  {
    if 0.0 < y {
      TimesPositive(x, y);
    } else if y < 0.0 {
      TimesPositive(x, -y);
      assert Times(x, -y) == -Times(x, y);
    }
  }

  /**
   Issues the lines of an arc from `position`, of which `offset` is the way to the centre. `theta` is the angle of
   one segment, and `rotations(i)` the exact rotation by `i` of them. Line number `abort` and those after it
   are not issued. `radii` are the radius vectors of the points passed through.
   */
  method ArcLines(
      position: Line, target: Line, offset: Vector, theta: real, segments: nat, rotations: nat -> Rotation, abort: nat)
    returns (lines: seq<Line>, ghost radii: seq<Vector>)
    requires -1.0 <= theta <= 1.0 && Exact(rotations) && 0 < abort
    ensures |lines| == if abort < LineCount(segments) then abort else LineCount(segments)
    ensures LineCount(segments) <= abort ==> lines[|lines| - 1] == target
    ensures Radii(radii, offset, TurnBy(theta), rotations)
    ensures |radii| == if abort < segments then abort + 1 else LineCount(segments)
    ensures forall k :: 0 <= k < |lines| && k < segments - 1 ==>
              && lines[k].end == Plus(Plus(position.end, offset), radii[k + 1])
              && lines[k].linear == Along(position.linear, k + 1, (target.linear - position.linear) / segments as real)
    ensures forall k :: 0 <= k < |radii| ==> NearCircle(radii[k], Fourth(theta), SquaredLength(offset))
  {
    FactorBounds(theta);
    StartNear(offset, Fourth(theta));
    lines, radii := [], [Negated(offset)];
    if segments != 0 {
      var linearPerSegment := (target.linear - position.linear) / segments as real;
      lines, radii :=
        TurnLines(position, offset, TurnBy(theta), Fourth(theta), linearPerSegment, segments, rotations, abort);
      if |lines| == abort {
        return;
      }
    }
    lines := lines + [target];
  }

  lemma StartNear(offset: Vector, fourth: real)
    requires 0.0 <= fourth <= 1.0
    ensures InBand(Negated(offset), fourth, 0, SquaredLength(offset)) && 0.0 <= SquaredLength(offset)
    ensures NearCircle(Negated(offset), fourth, SquaredLength(offset))
  {
    assert LowFor(fourth, 0) == 1.0 == High(0);
    assert SquaredLength(Negated(offset)) == SquaredLength(offset);
    BandLimits(Negated(offset), fourth, 0, SquaredLength(offset));
  }

  lemma CorrectionInBand(offset: Vector, rotations: nat -> Rotation, i: nat, fourth: real)
    requires Exact(rotations)
    ensures InBand(Turned(Negated(offset), RotationOf(rotations, i)), fourth, 0, SquaredLength(offset))
  {
    TurnScales(Negated(offset), RotationOf(rotations, i));
    assert LowFor(fourth, 0) == 1.0 == High(0);
  }

  lemma AlongNext(start: real, k: nat, step: real)
    ensures Along(start, k + 1, step) == Along(start, k, step) + step
    ensures Along(start, 0, step) == start
  {
  }

  lemma NextInBand(v: Vector, offset: Vector, turn: Rotation, fourth: real, rotations: nat -> Rotation, i: nat)
    requires 0 < i && Exact(rotations) && 0.0 <= fourth <= 1.0
    requires 1.0 - fourth / 12.0 <= SquaredLength(Vector(turn.cosine, turn.sine)) <= 1.0 + ROUNDING
    requires InBand(v, fourth, TurnsAt(i - 1), SquaredLength(offset))
    ensures InBand(NextRadius(v, offset, turn, rotations, i), fourth, TurnsAt(i), SquaredLength(offset))
  {
    StartNear(offset, fourth);
    OneMoreTurn(i - 1);
    if TurnsAt(i) == 0 {
      CorrectionInBand(offset, rotations, i, fourth);
    } else {
      TurnInBand(v, turn, fourth, TurnsAt(i - 1), SquaredLength(offset));
    }
  }

  /** The radius vector of segment `i`; `count` turns were made since it was last put right. */
  method TurnOnce(v: Vector, count: nat, offset: Vector, turn: Rotation, rotations: nat -> Rotation, i: nat)
    returns (radius: Vector, count': nat)
    requires 0 < i && count == TurnsAt(i - 1)
    ensures radius == NextRadius(v, offset, turn, rotations, i) && count' == TurnsAt(i)
  {
    OneMoreTurn(i - 1);
    if count < N_ARC_CORRECTION {
      radius := Turned(v, turn);
      count' := count + 1;
    } else {
      radius := Turned(Negated(offset), RotationOf(rotations, i));
      count' := 0;
    }
  }

  /** The loop over the segments but the last. */
  method TurnLines(
      position: Line, offset: Vector, turn: Rotation, ghost fourth: real, linearPerSegment: real, segments: nat,
      rotations: nat -> Rotation, abort: nat)
    returns (lines: seq<Line>, ghost radii: seq<Vector>)
    requires 0 < abort && 0 < segments && Exact(rotations) && 0.0 <= fourth <= 1.0
    requires 1.0 - fourth / 12.0 <= SquaredLength(Vector(turn.cosine, turn.sine)) <= 1.0 + ROUNDING
    ensures |lines| == if abort < segments - 1 then abort else segments - 1
    ensures |radii| == |lines| + 1 && Radii(radii, offset, turn, rotations)
    ensures forall k :: 0 <= k < |lines| ==>
              && lines[k].end == Plus(Plus(position.end, offset), radii[k + 1])
              && lines[k].linear == Along(position.linear, k + 1, linearPerSegment)
    ensures forall k :: 0 <= k < |radii| ==> NearCircle(radii[k], fourth, SquaredLength(offset))
  {
    var centre := Plus(position.end, offset);
    var radius := Negated(offset);
    var linear := position.linear;
    var i: nat, count: nat := 1, 0;
    lines, radii := [], [radius];
    StartNear(offset, fourth);
    OneMoreTurn(0);
    AlongNext(position.linear, 0, linearPerSegment);
    while i < segments
      invariant 1 <= i <= segments && |lines| == i - 1 < abort && |radii| == i
      invariant count == TurnsAt(i - 1)
      invariant radius == radii[i - 1] && InBand(radius, fourth, count, SquaredLength(offset))
      invariant Radii(radii, offset, turn, rotations)
      invariant linear == Along(position.linear, i - 1, linearPerSegment)
      invariant forall k :: 0 <= k < |lines| ==>
                  lines[k] == Line(Plus(centre, radii[k + 1]), Along(position.linear, k + 1, linearPerSegment))
      invariant forall k :: 0 <= k < |radii| ==> NearCircle(radii[k], fourth, SquaredLength(offset))
    {
      NextInBand(radius, offset, turn, fourth, rotations, i);
      radius, count := TurnOnce(radius, count, offset, turn, rotations, i);
      BandLimits(radius, fourth, count, SquaredLength(offset));
      AlongNext(position.linear, i - 1, linearPerSegment);
      linear := linear + linearPerSegment;
      lines := lines + [Line(Plus(centre, radius), linear)];
      radii := radii + [radius];
      if |lines| == abort {
        return;
      }
      i := i + 1;
    }
  }
}
