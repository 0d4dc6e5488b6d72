/**
 * The static Sanitizer factories: each one configures a single type in a
 * provider of its own and builds that type's sanitizer at once.
 */
module SanitizerFactory {
  import opened Outcomes
  import opened TypeBuilders
  import opened Sanitizers
  import opened Registry
  import opened ConfigurationProvider

  /**
   * Create(typeConfig): a new provider whose delegate registers `t` with
   * `typeConfig`, asked at once for `t`'s sanitizer. Since `t` is the type
   * just registered, the only possible failure is the configuration's own.
   */
  method Create<V(!new)>(t: TypeTag, typeConfig: SanitizerTypeBuilder<V> -> Result<SanitizerTypeBuilder<V>>)
    returns (r: Result<Sanitizer<V>>)
    ensures typeConfig(Empty()).Err? ==> r == Err(typeConfig(Empty()).error)
    ensures typeConfig(Empty()).Ok? ==>
              r.Ok? && forall x :: r.value.Sanitize(x) == Run(typeConfig(Empty()).value, x)
  {
    var script := [ForTypeConfigured(t, typeConfig)];
    RegisteredFirstCall(map[], script);
    assert script[1..] == [];
    var provider :- SanitizerConfigurationProvider.New(script);
    r := provider.CreateSanitizer(t);
  }

  /** Create(visitor): a sanitizer that applies `visitor` once. */
  method CreateFromVisitor<V(!new)>(t: TypeTag, visitor: Visitor<V>) returns (r: Result<Sanitizer<V>>)
    ensures r.Ok?
    ensures forall x :: r.value.Sanitize(x) == visitor(x)
  {
    var config := (b: SanitizerTypeBuilder<V>) => Ok(Transform(b, visitor));
    r := Create(t, config);
    var b := Transform(Empty<V>(), visitor);
    assert config(Empty()) == Ok(b);
    assert Steps(b) == [visitor];
    forall x
      ensures r.value.Sanitize(x) == visitor(x)
    {
      assert RunAll([visitor], x) == (var o := visitor(x); if o.error.Some? then o else RunAll([], o.value));
    }
  }

  /**
   * Create(Func<T, T> mutator): a sanitizer that replaces the value by
   * `mutator`'s result, and leaves it as it was when `mutator` throws.
   */
  method CreateFromMutator<V(!new)>(t: TypeTag, mutator: V -> Result<V>) returns (r: Result<Sanitizer<V>>)
    ensures r.Ok?
    ensures forall x :: mutator(x).Ok? ==> r.value.Sanitize(x) == Outcome(mutator(x).value, None)
    ensures forall x :: mutator(x).Err? ==> r.value.Sanitize(x) == Outcome(x, Some(mutator(x).error))
  {
    var config := (b: SanitizerTypeBuilder<V>) => Ok(TransformValue(b, mutator));
    r := Create(t, config);
    var b := TransformValue(Empty<V>(), mutator);
    assert config(Empty()) == Ok(b);
    assert Steps(b) == [Step(mutator)];
    forall x
      ensures r.value.Sanitize(x) == StepOutcome(mutator, x)
    {
      var v := Step(mutator);
      assert RunAll([v], x) == (var o := v(x); if o.error.Some? then o else RunAll([], o.value));
    }
  }

  /** NoOp(): a sanitizer whose visitor does nothing, so every value comes back unchanged. */
  function NoOp<V(!new)>(): (s: Sanitizer<V>)
    ensures forall x :: s.Sanitize(x) == Outcome(x, None)
  {
    DelegateSanitizer(x => Outcome(x, None))
  }
}
