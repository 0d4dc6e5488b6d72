/**
 * SanitizerConfigurationProvider: owns one registry, runs the configuration
 * delegate on it once, and hands out sanitizers built from it.
 *
 * The delegate can only call ForType on the registry it is given, so it is
 * modelled as the list of ForType calls it makes, in order.
 */
module ConfigurationProvider {
  import opened Outcomes
  import opened TypeBuilders
  import opened Sanitizers
  import opened Registry

  /** One ForType call made by the configuration delegate. */
  datatype Registration<!V> =
    | ForTypeConfigured(tag: TypeTag, config: SanitizerTypeBuilder<V> -> Result<SanitizerTypeBuilder<V>>)
    | ForTypeVisitor(tag: TypeTag, visitor: Visitor<V>)

  /** The builder a call registers, or the exception its type configuration throws. */
  function BuilderOf<V(!new)>(reg: Registration<V>): Result<SanitizerTypeBuilder<V>>
  {
    match reg
    case ForTypeConfigured(_, config) => config(Empty())
    case ForTypeVisitor(_, visitor) => Ok(SanitizerTypeBuilder([visitor], []))
  }

  /** The types a list of calls registers. */
  function Tags<V>(script: seq<Registration<V>>): set<TypeTag>
  {
    set i | 0 <= i < |script| :: script[i].tag
  }

  /**
   * The registry after the calls of `script` run in order on `m`, or the
   * first exception. Registration only adds entries: every type already
   * present keeps its builder, every call adds its own type with the builder
   * it built, and no type may be registered twice.
   */
  function Registered<V(!new)>(m: Registrations<V>, script: seq<Registration<V>>): (r: Result<Registrations<V>>)
    decreases |script|
    ensures r.Ok? ==> r.value.Keys == m.Keys + Tags(script)
    ensures r.Ok? ==> forall u :: u in m ==> r.value[u] == m[u]
    ensures r.Ok? ==> forall i :: 0 <= i < |script| ==> script[i].tag !in m
    ensures r.Ok? ==> forall i, j :: 0 <= i < j < |script| ==> script[i].tag != script[j].tag
    ensures r.Ok? ==> forall i :: 0 <= i < |script| ==>
              BuilderOf(script[i]).Ok? && r.value[script[i].tag] == BuilderOf(script[i]).value
  {
    if script == [] then Ok(m)
    else
      var b :- BuilderOf(script[0]);
      var m' :- Insert(m, script[0].tag, b);
      var rest := Registered(m', script[1..]);
      if rest.Ok? then RegisteredStep(m, script, m', rest.value); rest else rest
  }

  /** One call's insertion followed by the rest's keeps every fact `Registered` promises. */
  lemma RegisteredStep<V(!new)>(m: Registrations<V>, script: seq<Registration<V>>, m': Registrations<V>, r: Registrations<V>)
    requires script != [] && BuilderOf(script[0]).Ok?
    requires Insert(m, script[0].tag, BuilderOf(script[0]).value) == Ok(m')
    requires r.Keys == m'.Keys + Tags(script[1..])
    requires forall u :: u in m' ==> r[u] == m'[u]
    requires forall i :: 0 <= i < |script[1..]| ==> script[1..][i].tag !in m'
    requires forall i, j :: 0 <= i < j < |script[1..]| ==> script[1..][i].tag != script[1..][j].tag
    requires forall i :: 0 <= i < |script[1..]| ==>
               BuilderOf(script[1..][i]).Ok? && r[script[1..][i].tag] == BuilderOf(script[1..][i]).value
    ensures r.Keys == m.Keys + Tags(script)
    ensures forall u :: u in m ==> r[u] == m[u]
    ensures forall i :: 0 <= i < |script| ==> script[i].tag !in m
    ensures forall i, j :: 0 <= i < j < |script| ==> script[i].tag != script[j].tag
    ensures forall i :: 0 <= i < |script| ==>
              BuilderOf(script[i]).Ok? && r[script[i].tag] == BuilderOf(script[i]).value
  {
    TagsOfCons(script);
    assert forall i :: 1 <= i < |script| ==> script[1..][i - 1] == script[i];
  }

  /** The types of a non-empty list of calls: the first call's and the rest's. */
  lemma TagsOfCons<V>(script: seq<Registration<V>>)
    requires script != []
    ensures Tags(script) == {script[0].tag} + Tags(script[1..])
  {
    forall u | u in Tags(script)
      ensures u in {script[0].tag} + Tags(script[1..])
    {
      var i :| 0 <= i < |script| && script[i].tag == u;
      if i > 0 {
        assert script[1..][i - 1].tag == u;
      }
    }
  }

  /** If any call's type configuration throws, the configuration as a whole throws. */
  lemma {:induction false} FailingCallFailsConfiguration<V(!new)>(m: Registrations<V>, script: seq<Registration<V>>, i: nat)
    requires i < |script| && BuilderOf(script[i]).Err?
    decreases i
    ensures Registered(m, script).Err?
  {
    if i > 0 && BuilderOf(script[0]).Ok? && script[0].tag !in m {
      var m' := m[script[0].tag := BuilderOf(script[0]).value];
      assert script[1..][i - 1] == script[i];
      FailingCallFailsConfiguration(m', script[1..], i - 1);
    }
  }

  /**
   * Conversely, a configuration in which every call builds, no call's type is
   * already registered and no type is registered twice succeeds.
   */
  lemma {:induction false} RegisteredSucceeds<V(!new)>(m: Registrations<V>, script: seq<Registration<V>>)
    requires forall i :: 0 <= i < |script| ==> BuilderOf(script[i]).Ok?
    requires forall i :: 0 <= i < |script| ==> script[i].tag !in m
    requires forall i, j :: 0 <= i < j < |script| ==> script[i].tag != script[j].tag
    decreases |script|
    ensures Registered(m, script).Ok?
  {
    if script != [] {
      RegisteredFirstCall(m, script);
      var m' := m[script[0].tag := BuilderOf(script[0]).value];
      var rest := script[1..];
      assert forall i :: 0 <= i < |rest| ==> rest[i] == script[i + 1];
      RegisteredSucceeds(m', rest);
    }
  }

  /** One call, then the rest: the registry after a non-empty list of calls. */
  lemma RegisteredFirstCall<V(!new)>(m: Registrations<V>, script: seq<Registration<V>>)
    requires script != []
    ensures BuilderOf(script[0]).Err? ==> Registered(m, script) == Err(BuilderOf(script[0]).error)
    ensures BuilderOf(script[0]).Ok? && script[0].tag in m ==>
              Registered(m, script) == Err(DuplicateKey(script[0].tag.name))
    ensures BuilderOf(script[0]).Ok? && script[0].tag !in m ==>
              Registered(m, script) == Registered(m[script[0].tag := BuilderOf(script[0]).value], script[1..])
  {
  }

  class SanitizerConfigurationProvider<!V(!new)> {
    /** `_builder`: the registry this provider owns. */
    const builder: SanitizerBuilder<V>

    /** The field initialiser: every provider starts with a registry of its own, empty. */
    constructor Fresh()
      ensures fresh(builder) && builder.sanitizers == map[]
    {
      builder := new SanitizerBuilder();
    }

    /**
     * The constructor: a fresh registry, with the delegate's calls run on it
     * once, in order. An exception from the delegate escapes and no provider
     * results.
     */
    static method New(config: seq<Registration<V>>) returns (r: Result<SanitizerConfigurationProvider<V>>)
      ensures r.Ok? <==> Registered(map[], config).Ok?
      ensures r.Err? ==> r.error == Registered(map[], config).error
      ensures r.Ok? ==>
                && fresh(r.value) && fresh(r.value.builder)
                && r.value.builder.sanitizers == Registered(map[], config).value
    {
      var provider := new SanitizerConfigurationProvider.Fresh();
      var i := 0;
      while i < |config|
        invariant 0 <= i <= |config|
        invariant fresh(provider.builder)
        invariant Registered(map[], config) == Registered(provider.builder.sanitizers, config[i..])
      {
        ghost var m := provider.builder.sanitizers;
        assert config[i..][0] == config[i] && config[i..][1..] == config[i + 1..];
        RegisteredFirstCall(m, config[i..]);
        var call: Result<SanitizerTypeBuilder<V>>;
        match config[i] {
          case ForTypeConfigured(t, c) =>
            call := provider.builder.ForType(t, c);
          case ForTypeVisitor(t, v) =>
            call := provider.builder.ForTypeVisitor(t, v);
        }
        if call.Err? {
          assert Registered(m, config[i..]) == Err(call.error);
          return Err(call.error);
        }
        assert provider.builder.sanitizers == m[config[i].tag := BuilderOf(config[i]).value];
        i := i + 1;
      }
      assert config[i..] == [];
      return Ok(provider);
    }

    /**
     * CreateSanitizer<T>: exactly the registry's BuildType. It only reads the
     * registry, so asking twice for the same type gives the same sanitizer.
     */
    function CreateSanitizer(t: TypeTag): (r: Result<Sanitizer<V>>)
      reads this, builder
      ensures r.Ok? <==> t in builder.sanitizers
      ensures r.Err? ==> r.error == NotRegistered(t.name)
      ensures r.Ok? ==> forall x :: r.value.Sanitize(x) == Run(builder.sanitizers[t], x)
    {
      builder.BuildType(t)
    }
  }
}
