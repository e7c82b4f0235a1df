/** Percentages and the sign facts about real products they rest on. */
module Ratios {

  /** `part / whole * 100`, for a part of a positive whole. */
  function Percent(part: nat, whole: nat): (r: real)
    requires 0 < whole && part <= whole
    ensures 0.0 <= r <= 100.0
    ensures r == 100.0 <==> part == whole
    ensures r == 0.0 <==> part == 0
  {
    FractionBounds(part, whole);
    part as real / whole as real * 100.0
  }

  lemma FractionBounds(part: nat, whole: nat)
    requires 0 < whole && part <= whole
    ensures 0.0 <= part as real / whole as real <= 1.0
    ensures part as real / whole as real == 1.0 <==> part == whole
    ensures part as real / whole as real == 0.0 <==> part == 0
  {
    var f, p, w := part as real / whole as real, part as real, whole as real;
    assert f * w == p;
    PositiveFactor(f, w);
    assert (1.0 - f) * w == w - p;
    PositiveFactor(1.0 - f, w);
    if part == whole {
      assert (f - 1.0) * w == 0.0;
      PositiveFactor(f - 1.0, w);
    }
  }

  lemma NonNegativeProduct(a: real, b: real)
    requires a >= 0.0 && b >= 0.0
    ensures a * b >= 0.0
  {
  }

  lemma PositiveFactor(a: real, b: real)
    requires b > 0.0 && a * b >= 0.0
    ensures a >= 0.0
  {
  }
}
