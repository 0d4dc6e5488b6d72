/**
 * The extensions of SanitizerTypeBuilder<decimal>: clamping, and rounding to
 * an integral value downwards, upwards and toward zero. Decimals are exact
 * rationals here (`real`); their 28-digit precision and range are not modelled.
 */
module DecimalExtensions {
  import opened Outcomes
  import opened TypeBuilders

  /** A value with no fractional part. */
  predicate IsIntegral(x: real) {
    x.Floor as real == x
  }

  /** An integer, seen as a decimal, is integral. */
  lemma IntegersAreIntegral(k: int)
    ensures IsIntegral(k as real)
  {
    assert (k as real).Floor == k;
  }

  /** Math.Max(decimal, decimal). */
  function MathMax(a: real, b: real): (r: real)
    ensures r >= a && r >= b
    ensures r == a || r == b
  {
    if a >= b then a else b
  }

  /** Math.Min(decimal, decimal). */
  function MathMin(a: real, b: real): (r: real)
    ensures r <= a && r <= b
    ensures r == a || r == b
  {
    if a <= b then a else b
  }

  /** Math.Floor(decimal): the greatest integral value not above `x`. */
  function MathFloor(x: real): (f: real)
    ensures IsIntegral(f)
    ensures f <= x < f + 1.0
  {
    x.Floor as real
  }

  /** Math.Ceiling(decimal): the least integral value not below `x`. */
  function MathCeiling(x: real): (g: real)
    ensures IsIntegral(g)
    ensures g - 1.0 < x <= g
  {
    var f := x.Floor;
    IntegersAreIntegral(f + 1);
    if IsIntegral(x) then x else (f + 1) as real
  }

  /** Math.Truncate(decimal): `x` with its fractional digits dropped, rounding toward zero. */
  function MathTruncate(x: real): (t: real)
    ensures IsIntegral(t)
    ensures x >= 0.0 ==> 0.0 <= t <= x < t + 1.0
    ensures x < 0.0 ==> t - 1.0 < x <= t <= 0.0
  {
    if x >= 0.0 then MathFloor(x) else MathCeiling(x)
  }

  /** The integral value within one below `x` (at or under it) is unique: it is the floor. */
  lemma FloorUnique(x: real, f: real)
    requires IsIntegral(f) && f <= x < f + 1.0
    ensures MathFloor(x) == f
  {
    var k := f.Floor;
    assert k as real == f;
    assert k <= x.Floor by {
      assert (k as real) <= x;
    }
  }

  /** The integral value within one above `x` (at or over it) is unique: it is the ceiling. */
  lemma CeilingUnique(x: real, g: real)
    requires IsIntegral(g) && g - 1.0 < x <= g
    ensures MathCeiling(x) == g
  {
    var k := g.Floor;
    var f := x.Floor;
    assert k as real == g;
    assert f as real <= x < f as real + 1.0;
    if IsIntegral(x) {
      assert f == k by {
        assert (k - 1) as real < f as real <= k as real;
      }
    } else {
      assert f as real < x;
      assert f + 1 == k by {
        assert f as real < k as real;
        assert (k - 1) as real < (f + 1) as real;
      }
    }
  }

  /** Truncation agrees with Floor on non-negative values and with Ceiling on negative ones, and never grows the magnitude. */
  lemma TruncateIsFloorOrCeiling(x: real)
    ensures x >= 0.0 ==> MathTruncate(x) == MathFloor(x)
    ensures x < 0.0 ==> MathTruncate(x) == MathCeiling(x)
    ensures (if MathTruncate(x) >= 0.0 then MathTruncate(x) else -MathTruncate(x))
              <= (if x >= 0.0 then x else -x)
  {
    if x >= 0.0 {
      FloorUnique(x, MathTruncate(x));
    } else {
      CeilingUnique(x, MathTruncate(x));
    }
  }

  /** Floor, Ceiling and Truncate leave integral values alone, and so are idempotent. */
  lemma RoundingKeepsIntegralValues(x: real)
    ensures IsIntegral(x) ==> MathFloor(x) == x && MathCeiling(x) == x && MathTruncate(x) == x
    ensures MathFloor(MathFloor(x)) == MathFloor(x)
    ensures MathCeiling(MathCeiling(x)) == MathCeiling(x)
    ensures MathTruncate(MathTruncate(x)) == MathTruncate(x)
  {
    if IsIntegral(x) {
      FloorUnique(x, x);
      CeilingUnique(x, x);
    }
    FloorUnique(MathFloor(x), MathFloor(x));
    CeilingUnique(MathCeiling(x), MathCeiling(x));
    var t := MathTruncate(x);
    FloorUnique(t, t);
    CeilingUnique(t, t);
  }

  /** A value already on the right side of the bound is left as it is. */
  lemma ClampsKeepSatisfiedValues(x: real, c: real)
    ensures x >= c ==> MathMax(x, c) == x
    ensures x <= c ==> MathMin(x, c) == x
  {
  }

  /** Max(comparable): raises the value to at least `comparable`. */
  function Max(self: SanitizerTypeBuilder<real>, comparable: real): (r: SanitizerTypeBuilder<real>)
    ensures AppendsStep(self, r, x => Ok(MathMax(x, comparable)))
  {
    TransformValue(self, x => Ok(MathMax(x, comparable)))
  }

  /** Min(comparable): lowers the value to at most `comparable`. */
  function Min(self: SanitizerTypeBuilder<real>, comparable: real): (r: SanitizerTypeBuilder<real>)
    ensures AppendsStep(self, r, x => Ok(MathMin(x, comparable)))
  {
    TransformValue(self, x => Ok(MathMin(x, comparable)))
  }

  /** Floor(): rounds the value down to an integral value. */
  function Floor(self: SanitizerTypeBuilder<real>): (r: SanitizerTypeBuilder<real>)
    ensures AppendsStep(self, r, x => Ok(MathFloor(x)))
  {
    TransformValue(self, x => Ok(MathFloor(x)))
  }

  /** Ceiling(): rounds the value up to an integral value. */
  function Ceiling(self: SanitizerTypeBuilder<real>): (r: SanitizerTypeBuilder<real>)
    ensures AppendsStep(self, r, x => Ok(MathCeiling(x)))
  {
    TransformValue(self, x => Ok(MathCeiling(x)))
  }

  /** Truncate(): drops the fractional part of the value. */
  function Truncate(self: SanitizerTypeBuilder<real>): (r: SanitizerTypeBuilder<real>)
    ensures AppendsStep(self, r, x => Ok(MathTruncate(x)))
  {
    TransformValue(self, x => Ok(MathTruncate(x)))
  }
}
