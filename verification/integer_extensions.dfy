/**
 * The extensions of SanitizerTypeBuilder<int>: clamping with Math.Max and
 * Math.Min, and Math.Abs, on 32-bit signed integers.
 */
module IntegerExtensions {
  import opened Outcomes
  import opened TypeBuilders

  const MinValue: int := -0x8000_0000
  const MaxValue: int := 0x7FFF_FFFF

  /** System.Int32. */
  newtype Int32 = x: int | MinValue <= x <= MaxValue

  /** Math.Max(int, int). */
  function MathMax(a: Int32, b: Int32): (r: Int32)
    ensures r >= a && r >= b
    ensures r == a || r == b
  {
    if a >= b then a else b
  }

  /** Math.Min(int, int). */
  function MathMin(a: Int32, b: Int32): (r: Int32)
    ensures r <= a && r <= b
    ensures r == a || r == b
  {
    if a <= b then a else b
  }

  /**
   * Math.Abs(int): the magnitude, which for Int32.MinValue does not fit in 32
   * bits, so .NET throws an OverflowException instead of wrapping around.
   */
  function MathAbs(x: Int32): (r: Result<Int32>)
    ensures r.Err? <==> x as int == MinValue
    ensures r.Err? ==> r.error == Overflow
    ensures r.Ok? ==> r.value >= 0 && (r.value == x || r.value as int == -(x as int))
  {
    if x as int == MinValue then Err(Overflow)
    else if x < 0 then Ok(-x)
    else Ok(x)
  }

  /** Max(comparable): raises the value to at least `comparable` (a lower clamp). */
  function Max(self: SanitizerTypeBuilder<Int32>, comparable: Int32): (r: SanitizerTypeBuilder<Int32>)
    ensures AppendsStep(self, r, x => Ok(MathMax(x, comparable)))
  {
    TransformValue(self, x => Ok(MathMax(x, comparable)))
  }

  /** Min(comparable): lowers the value to at most `comparable` (an upper clamp). */
  function Min(self: SanitizerTypeBuilder<Int32>, comparable: Int32): (r: SanitizerTypeBuilder<Int32>)
    ensures AppendsStep(self, r, x => Ok(MathMin(x, comparable)))
  {
    TransformValue(self, x => Ok(MathMin(x, comparable)))
  }

  /** Abs(): replaces the value by its magnitude, failing on Int32.MinValue. */
  function Abs(self: SanitizerTypeBuilder<Int32>): (r: SanitizerTypeBuilder<Int32>)
    ensures AppendsStep(self, r, MathAbs)
  {
    TransformValue(self, MathAbs)
  }

  /** A value already on the right side of the bound is left as it is, so both clamps are idempotent. */
  lemma ClampsKeepSatisfiedValues(x: Int32, c: Int32)
    ensures x >= c ==> MathMax(x, c) == x
    ensures x <= c ==> MathMin(x, c) == x
    ensures MathMax(MathMax(x, c), c) == MathMax(x, c)
    ensures MathMin(MathMin(x, c), c) == MathMin(x, c)
  {
  }

  /** Abs is idempotent on the values where it succeeds. */
  lemma AbsIdempotent(x: Int32)
    requires MathAbs(x).Ok?
    ensures MathAbs(MathAbs(x).value) == MathAbs(x)
  {
  }

  /**
   * A builder configured with Max(lo) and then Min(hi), lo <= hi, leaves every
   * value it completes on inside [lo, hi].
   */
  lemma MaxThenMinClamps(self: SanitizerTypeBuilder<Int32>, lo: Int32, hi: Int32, x: Int32)
    requires self.properties == [] && lo <= hi
    ensures Run(Min(Max(self, lo), hi), x).Completed() ==>
              lo <= Run(Min(Max(self, lo), hi), x).value <= hi
  {
    var raised := Max(self, lo);
    AppendedStepRunsLast(self, raised, y => Ok(MathMax(y, lo)), x);
    AppendedStepRunsLast(raised, Min(raised, hi), y => Ok(MathMin(y, hi)), x);
  }
}
