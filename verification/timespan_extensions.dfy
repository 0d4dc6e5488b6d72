/**
 * The extensions of SanitizerTypeBuilder<TimeSpan>: adding, subtracting and
 * negating intervals. A TimeSpan is a signed 64-bit count of 100-nanosecond
 * ticks; a result outside that range throws an OverflowException.
 */
module TimeSpanExtensions {
  import opened Outcomes
  import opened TypeBuilders

  const MinTicks: int := -0x8000_0000_0000_0000
  const MaxTicks: int := 0x7FFF_FFFF_FFFF_FFFF

  /** System.Int64. */
  newtype Int64 = x: int | MinTicks <= x <= MaxTicks

  predicate InRange(t: int) {
    MinTicks <= t <= MaxTicks
  }

  /** System.TimeSpan. */
  datatype TimeSpan = TimeSpan(ticks: Int64) {

    /** TimeSpan.Add: the interval whose ticks are the sum, when the sum fits. */
    function Add(other: TimeSpan): (r: Result<TimeSpan>)
      ensures r.Ok? <==> InRange(ticks as int + other.ticks as int)
      ensures r.Err? ==> r.error == Overflow
      ensures r.Ok? ==> r.value.ticks as int == ticks as int + other.ticks as int
    {
      var sum := ticks as int + other.ticks as int;
      if InRange(sum) then Ok(TimeSpan(sum as Int64)) else Err(Overflow)
    }

    /** TimeSpan.Subtract: the interval whose ticks are the difference, when it fits. */
    function Subtract(other: TimeSpan): (r: Result<TimeSpan>)
      ensures r.Ok? <==> InRange(ticks as int - other.ticks as int)
      ensures r.Err? ==> r.error == Overflow
      ensures r.Ok? ==> r.value.ticks as int == ticks as int - other.ticks as int
    {
      var difference := ticks as int - other.ticks as int;
      if InRange(difference) then Ok(TimeSpan(difference as Int64)) else Err(Overflow)
    }

    /** TimeSpan.Negate: the interval of opposite sign; TimeSpan.MinValue has none. */
    function Negate(): (r: Result<TimeSpan>)
      ensures r.Ok? <==> ticks as int != MinTicks
      ensures r.Err? ==> r.error == Overflow
      ensures r.Ok? ==> r.value.ticks as int == -(ticks as int)
    {
      if ticks as int == MinTicks then Err(Overflow) else Ok(TimeSpan(-ticks))
    }
  }

  /** Subtracting what was just added restores the original interval. */
  lemma AddThenSubtractRestores(x: TimeSpan, v: TimeSpan)
    requires x.Add(v).Ok?
    ensures x.Add(v).value.Subtract(v) == Ok(x)
  {
  }

  /** Negating twice is the identity wherever the first negation succeeds. */
  lemma NegateInvolution(x: TimeSpan)
    requires x.Negate().Ok?
    ensures x.Negate().value.Negate() == Ok(x)
  {
  }

  /**
   * Subtracting `v` is adding its negation, when that negation exists; for
   * v == MinValue, Subtract can still succeed although Negate cannot.
   */
  lemma SubtractIsAddOfNegation(x: TimeSpan, v: TimeSpan)
    requires v.Negate().Ok?
    ensures x.Subtract(v) == x.Add(v.Negate().value)
  {
  }

  /** Add(value): shifts the interval by `value`. */
  function Add(self: SanitizerTypeBuilder<TimeSpan>, value: TimeSpan): (r: SanitizerTypeBuilder<TimeSpan>)
    ensures AppendsStep(self, r, (x: TimeSpan) => x.Add(value))
  {
    TransformValue(self, (x: TimeSpan) => x.Add(value))
  }

  /** Subtract(value): shifts the interval back by `value`. */
  function Subtract(self: SanitizerTypeBuilder<TimeSpan>, value: TimeSpan): (r: SanitizerTypeBuilder<TimeSpan>)
    ensures AppendsStep(self, r, (x: TimeSpan) => x.Subtract(value))
  {
    TransformValue(self, (x: TimeSpan) => x.Subtract(value))
  }

  /** Negate(): flips the sign of the interval. */
  function Negate(self: SanitizerTypeBuilder<TimeSpan>): (r: SanitizerTypeBuilder<TimeSpan>)
    ensures AppendsStep(self, r, (x: TimeSpan) => x.Negate())
  {
    TransformValue(self, (x: TimeSpan) => x.Negate())
  }

  /**
   * A builder configured with Add(v) and then Subtract(v) returns every value
   * on which the Add succeeds to what the earlier steps made of it.
   */
  lemma AddThenSubtractConfigured(self: SanitizerTypeBuilder<TimeSpan>, v: TimeSpan, x: TimeSpan)
    requires self.properties == []
    requires Run(self, x).Completed() && Run(self, x).value.Add(v).Ok?
    ensures Run(Subtract(Add(self, v), v), x) == Run(self, x)
  {
    var added := Add(self, v);
    AppendedStepRunsLast(self, added, (y: TimeSpan) => y.Add(v), x);
    AppendedStepRunsLast(added, Subtract(added, v), (y: TimeSpan) => y.Subtract(v), x);
    AddThenSubtractRestores(Run(self, x).value, v);
  }
}
