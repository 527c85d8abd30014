/** Facts of real arithmetic used in several places. */
module Reals {

  function Magnitude(x: real): real {
    if x < 0.0 then -x else x
  }

  function Times(x: real, y: real): real {
    x * y
  }

  lemma TimesPositive(x: real, y: real)
    requires 0.0 < x && 0.0 < y
    ensures 0.0 < Times(x, y)
  {
  }

  lemma NotNegative(x: real, f: real)
    requires 0.0 <= x && 0.0 <= f
    ensures 0.0 <= x * f
  {
  }

  lemma NotMore(x: real, f: real)
    requires x <= 1.0 && 0.0 <= f
    ensures x * f <= f
  {
    var d := 1.0 - x;
    NotNegative(d, f);
    assert (x + d) * f == x * f + d * f;
  }

  lemma ScaleMonotone(x: real, y: real, f: real)
    requires x <= y && 0.0 <= f
    ensures x * f <= y * f
  {
    var d := y - x;
    assert 0.0 <= d * f;
    assert (x + d) * f == x * f + d * f;
  }
}
