/**
 * The registry (SanitizerBuilder): a table from a type to the builder
 * configured for it, filled by ForType and read by BuildType.
 */
module Registry {
  import opened Outcomes
  import opened TypeBuilders
  import opened Sanitizers

  /** System.Type as the registry uses it: a key, with the name that error messages show. */
  datatype TypeTag = TypeTag(name: string)

  type Registrations<!V> = map<TypeTag, SanitizerTypeBuilder<V>>

  /** Dictionary.Add: inserts a new key, and throws when the key is already present. */
  function Insert<V(!new)>(m: Registrations<V>, t: TypeTag, b: SanitizerTypeBuilder<V>): (r: Result<Registrations<V>>)
    ensures r.Err? <==> t in m
    ensures r.Err? ==> r.error == DuplicateKey(t.name)
    ensures r.Ok? ==> r.value.Keys == m.Keys + {t} && r.value[t] == b
    ensures r.Ok? ==> forall u :: u in m ==> r.value[u] == m[u]
  {
    if t in m then Err(DuplicateKey(t.name)) else Ok(m[t := b])
  }

  class SanitizerBuilder<!V(!new)> {
    /** `_sanitizers`: the builder registered for each type. */
    var sanitizers: Registrations<V>

    /** A new registry has no type registered. */
    constructor ()
      ensures sanitizers == map[]
    {
      sanitizers := map[];
    }

    /**
     * ForType(visitor), both the asynchronous overload and the synchronous
     * one that wraps it: registers a new builder whose sole transformation is
     * `visitor`, and returns that builder.
     */
    method ForTypeVisitor(t: TypeTag, visitor: Visitor<V>) returns (r: Result<SanitizerTypeBuilder<V>>)
      modifies this
      ensures t in old(sanitizers) ==> r == Err(DuplicateKey(t.name)) && sanitizers == old(sanitizers)
      ensures t !in old(sanitizers) ==>
                && r == Ok(SanitizerTypeBuilder([visitor], []))
                && sanitizers == old(sanitizers)[t := r.value]
    {
      var result := Transform(Empty(), visitor);
      assert result.visitors == [visitor];
      var added := Insert(sanitizers, t, result);
      if added.Err? {
        return Err(added.error);
      }
      sanitizers := added.value;
      return Ok(result);
    }

    /**
     * ForType(config): runs `config` on a new builder, then registers that
     * builder under `t` and returns it. The configuration runs before the
     * insertion, so if it throws nothing is registered.
     */
    method ForType(t: TypeTag, config: SanitizerTypeBuilder<V> -> Result<SanitizerTypeBuilder<V>>)
      returns (r: Result<SanitizerTypeBuilder<V>>)
      modifies this
      ensures config(Empty()).Err? ==> r == Err(config(Empty()).error) && sanitizers == old(sanitizers)
      ensures config(Empty()).Ok? && t in old(sanitizers) ==>
                r == Err(DuplicateKey(t.name)) && sanitizers == old(sanitizers)
      ensures config(Empty()).Ok? && t !in old(sanitizers) ==>
                r == config(Empty()) && sanitizers == old(sanitizers)[t := r.value]
    {
      var result :- config(Empty());
      var added := Insert(sanitizers, t, result);
      if added.Err? {
        return Err(added.error);
      }
      sanitizers := added.value;
      return Ok(result);
    }

    /**
     * BuildType<T>: a sanitizer compiled from the builder registered for `t`,
     * or the not-registered error naming `t`. It only reads the registry.
     */
    function BuildType(t: TypeTag): (r: Result<Sanitizer<V>>)
      reads this
      ensures r.Ok? <==> t in sanitizers
      ensures r.Err? ==> r.error == NotRegistered(t.name)
      ensures r.Ok? ==> forall x :: r.value.Sanitize(x) == Run(sanitizers[t], x)
    {
      if t in sanitizers then Ok(DelegateSanitizer(Build(sanitizers[t])))
      else Err(NotRegistered(t.name))
    }
  }
}
