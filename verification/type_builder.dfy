/**
 * The per-type pipeline builder (SanitizerTypeBuilder<T>): an ordered list of
 * whole-value visitors and, per property, a sub-pipeline bridged into the
 * parent, compiled into one visitor by BuildVisitor.
 *
 * The builder is modelled as a value: a configuration delegate is a function
 * from the fresh builder to the configured one (or to the exception it threw).
 */
module TypeBuilders {
  import opened Outcomes

  /** A transformation of a value passed by reference (Visitor<T> and AsyncVisitor<T>). */
  type Visitor<!V> = V -> Outcome<V>

  /** The effect of `x = f(x)`: if `f` throws, the assignment never happens. */
  function StepOutcome<V>(f: V -> Result<V>, x: V): Outcome<V>
  {
    match f(x)
    case Ok(y) => Outcome(y, None)
    case Err(e) => Outcome(x, Some(e))
  }

  /** The visitor that Transform(Func<T, T>) wraps around a mutator. */
  function Step<V>(f: V -> Result<V>): Visitor<V>
  {
    x => StepOutcome(f, x)
  }

  // ---------------------------------------------------------------------------
  // Running visitors in sequence

  /**
   * Invokes the visitors in order, each on the value the previous one left;
   * the first exception stops the rest and leaves the value as it was then.
   */
  function RunAll<V>(vs: seq<Visitor<V>>, x: V): (o: Outcome<V>)
    ensures vs == [] ==> o == Outcome(x, None)
    ensures |vs| == 1 ==> o == vs[0](x)
  {
    if vs == [] then Outcome(x, None)
    else
      var o := vs[0](x);
      if o.error.Some? then o else RunAll(vs[1..], o.value)
  }

  /** Continues with `vs` after `o`, unless `o` ended in an exception. */
  function Then<V>(o: Outcome<V>, vs: seq<Visitor<V>>): Outcome<V>
  {
    if o.error.Some? then o else RunAll(vs, o.value)
  }

  /** Running two lists back to back is running the first, then the second on its result. */
  lemma {:induction false} RunAllAppend<V>(a: seq<Visitor<V>>, b: seq<Visitor<V>>, x: V)
    ensures RunAll(a + b, x) == Then(RunAll(a, x), b)
  {
    if a == [] {
      assert a + b == b;
    } else {
      assert (a + b)[0] == a[0];
      assert (a + b)[1..] == a[1..] + b;
      var o := a[0](x);
      if o.error.None? {
        RunAllAppend(a[1..], b, o.value);
      }
    }
  }

  // ---------------------------------------------------------------------------
  // Property paths

  /** A property as reflection describes it. */
  datatype PropertyInfo = PropertyInfo(name: string, hasPublicSetter: bool)

  datatype Member = PropertyMember(info: PropertyInfo) | FieldMember(name: string)

  /** The body of a path lambda `x => body`, by expression node kind. */
  datatype Expr =
    | Parameter                                  // the lambda's own parameter
    | Constant                                   // a literal or an inlined constant
    | Call(target: Expr, methodName: string)     // a method call on `target`
    | MemberAccess(target: Expr, member: Member) // `target.member`
    | StaticAccess(member: Member)               // a member access with no target

  const NotMemberAccessMessage := "Only member access expressions are supported."
  const NotPropertyMessage := "The member access expression must only reference properties."
  const NoSetterMessage := "The property expression must have a publicly accessible setter."

  /** A chain of property accesses that ends at the parameter or at a static property. */
  predicate IsPropertyChain(e: Expr)
  {
    match e
    case MemberAccess(t, m) => m.PropertyMember? && (t == Parameter || IsPropertyChain(t))
    case StaticAccess(m) => m.PropertyMember?
    case _ => false
  }

  /** The hop of a property chain nearest the parameter. */
  function FirstHop(e: Expr): PropertyInfo
    requires IsPropertyChain(e)
  {
    match e
    case MemberAccess(t, m) => if t == Parameter then m.info else FirstHop(t)
    case StaticAccess(m) => m.info
  }

  /**
   * The walk of a path expression in Property: every node must be a member
   * access to a property, down to the parameter. The walk returns the property
   * at the bottom of the chain, i.e. the first hop from the parameter.
   */
  function ResolvePath(body: Expr): (r: Result<PropertyInfo>)
    ensures r.Ok? <==> IsPropertyChain(body)
    ensures r.Ok? ==> r.value == FirstHop(body)
    ensures r.Err? ==> r.error.InvalidOperation?
    ensures body.Parameter? || body.Constant? || body.Call? ==> r == Err(InvalidOperation(NotMemberAccessMessage))
  {
    match body
    case MemberAccess(target, member) =>
      if !member.PropertyMember? then Err(InvalidOperation(NotPropertyMessage))
      else if target == Parameter then Ok(member.info)
      else ResolvePath(target)
    case StaticAccess(member) =>
      if member.PropertyMember? then Ok(member.info) else Err(InvalidOperation(NotPropertyMessage))
    case _ => Err(InvalidOperation(NotMemberAccessMessage))
  }

  /** Property's checks: the path resolves and the property has a public setter. */
  function ResolveWritable(body: Expr): (r: Result<PropertyInfo>)
    ensures r.Ok? <==> IsPropertyChain(body) && FirstHop(body).hasPublicSetter
    ensures r.Ok? ==> r.value == FirstHop(body)
    ensures IsPropertyChain(body) && !FirstHop(body).hasPublicSetter ==>
              r == Err(InvalidOperation(NoSetterMessage))
    ensures r.Err? ==> r.error.InvalidOperation?
  {
    var info :- ResolvePath(body);
    if info.hasPublicSetter then Ok(info) else Err(InvalidOperation(NoSetterMessage))
  }

  /** A nested path `x.A.B` resolves to `A`, the hop next to the parameter, not to the leaf `B`. */
  lemma NestedPathResolvesToFirstHop(a: PropertyInfo, b: PropertyInfo)
    ensures ResolvePath(MemberAccess(MemberAccess(Parameter, PropertyMember(a)), PropertyMember(b))) == Ok(a)
  {
  }

  // ---------------------------------------------------------------------------
  // Reading and writing a property: the bridge

  /** The get/set pair reflection gives for a property of type C on a P. */
  datatype Field<!P, !C> = Field(read: P -> C, write: (P, C) -> P)

  /** A get/set pair that behaves like a stored property. */
  ghost predicate WellBehaved<P(!new), C(!new)>(f: Field<P, C>)
  {
    && (forall p, c :: f.read(f.write(p, c)) == c)
    && (forall p :: f.write(p, f.read(p)) == p)
    && (forall p, c, d :: f.write(f.write(p, c), d) == f.write(p, d))
  }

  /**
   * The read-invoke-write glue for a property: read the property, run the
   * child's visitor on that value, write the result back. An exception from
   * the child reaches the caller wrapped by reflection and the write-back does
   * not happen.
   */
  function Bridge<P, C>(field: Field<P, C>, child: Visitor<C>): Visitor<P>
  {
    p =>
      var o := child(field.read(p));
      if o.error.Some? then Outcome(p, Some(TargetInvocation(o.error.value)))
      else Outcome(field.write(p, o.value), None)
  }

  /** After the bridge the property holds what the child's pipeline made of its old value. */
  lemma BridgeWritesChildResult<P(!new), C(!new)>(field: Field<P, C>, child: Visitor<C>, p: P)
    requires WellBehaved(field)
    ensures Bridge(field, child)(p).Completed() <==> child(field.read(p)).Completed()
    ensures Bridge(field, child)(p).Completed() ==>
              field.read(Bridge(field, child)(p).value) == child(field.read(p)).value
    ensures !Bridge(field, child)(p).Completed() ==>
              Bridge(field, child)(p) == Outcome(p, Some(TargetInvocation(child(field.read(p)).error.value)))
  {
  }

  /**
   * The bridge changes nothing a write of its property leaves alone: any other
   * property that such writes do not disturb reads the same afterwards.
   */
  lemma BridgeKeepsOtherProperties<P(!new), C(!new), D>(field: Field<P, C>, child: Visitor<C>, other: Field<P, D>, p: P)
    requires forall q, c :: other.read(field.write(q, c)) == other.read(q)
    ensures other.read(Bridge(field, child)(p).value) == other.read(p)
  {
  }

  /**
   * Splitting a property's pipeline into two bridged halves gives the same
   * value as bridging the whole, when neither half throws.
   */
  lemma BridgeSplits<P(!new), C(!new)>(field: Field<P, C>, c1: Visitor<C>, c2: Visitor<C>, p: P)
    requires WellBehaved(field)
    ensures (Then(Bridge(field, c1)(p), [Bridge(field, c2)]).Completed()
             <==> Bridge(field, x => RunAll([c1, c2], x))(p).Completed())
    ensures Then(Bridge(field, c1)(p), [Bridge(field, c2)]).Completed() ==>
              Then(Bridge(field, c1)(p), [Bridge(field, c2)]) == Bridge(field, x => RunAll([c1, c2], x))(p)
  {
    var o1 := c1(field.read(p));
    assert [c1, c2][1..] == [c2];
    assert RunAll([c1, c2], field.read(p)) == (if o1.error.Some? then o1 else RunAll([c2], o1.value));
    if o1.error.None? {
      var q := field.write(p, o1.value);
      assert Bridge(field, c1)(p) == Outcome(q, None);
      assert field.read(q) == o1.value;
      var o2 := c2(o1.value);
      assert RunAll([c2], o1.value) == (if o2.error.Some? then o2 else RunAll([], o2.value));
      assert RunAll([Bridge(field, c2)], q) == (var b := Bridge(field, c2)(q); if b.error.Some? then b else RunAll([], b.value));
      if o2.error.None? {
        assert field.write(q, o2.value) == field.write(p, o2.value);
      }
    }
  }

  // ---------------------------------------------------------------------------
  // The builder

  datatype PropertyEntry<!V> = PropertyEntry(property: PropertyInfo, visitor: Visitor<V>)

  /** SanitizerTypeBuilder<T>: `_visitors` and `_propertyVisitors`, both in registration order. */
  datatype SanitizerTypeBuilder<!V> = SanitizerTypeBuilder(visitors: seq<Visitor<V>>, properties: seq<PropertyEntry<V>>)

  /** A freshly constructed builder. */
  function Empty<V(!new)>(): (b: SanitizerTypeBuilder<V>)
    ensures forall x :: Run(b, x) == Outcome(x, None)
  {
    SanitizerTypeBuilder([], [])
  }

  /** The properties that already have a sub-pipeline. */
  function PropertyKeys<V>(ps: seq<PropertyEntry<V>>): set<PropertyInfo>
  {
    set i | 0 <= i < |ps| :: ps[i].property
  }

  /** Transform(visitor): appends a whole-value visitor. */
  function Transform<V>(self: SanitizerTypeBuilder<V>, visitor: Visitor<V>): (r: SanitizerTypeBuilder<V>)
    ensures r.properties == self.properties
    ensures Steps(r) == self.visitors + [visitor] + PropertyVisitors(self.properties)
  {
    SanitizerTypeBuilder(self.visitors + [visitor], self.properties)
  }

  /** Transform(Func<T, T>): appends the visitor of `x = mutator(x)`. */
  function TransformValue<V(!new)>(self: SanitizerTypeBuilder<V>, mutator: V -> Result<V>): (r: SanitizerTypeBuilder<V>)
    ensures AppendsStep(self, r, mutator)
  {
    Transform(self, Step(mutator))
  }

  /** `r` is `self` with one more whole-value step, `x = f(x)`, and nothing else changed. */
  ghost predicate AppendsStep<V(!new)>(self: SanitizerTypeBuilder<V>, r: SanitizerTypeBuilder<V>, f: V -> Result<V>)
  {
    && r.properties == self.properties
    && |r.visitors| == |self.visitors| + 1
    && r.visitors[..|self.visitors|] == self.visitors
    && forall x :: r.visitors[|self.visitors|](x) == StepOutcome(f, x)
  }

  /** The visitor of every registered property, in registration order. */
  function PropertyVisitors<V>(ps: seq<PropertyEntry<V>>): (vs: seq<Visitor<V>>)
    ensures |vs| == |ps|
    ensures forall i :: 0 <= i < |ps| ==> vs[i] == ps[i].visitor
  {
    seq(|ps|, i requires 0 <= i < |ps| => ps[i].visitor)
  }

  /** What BuildVisitor combines: every whole-value visitor, then every property's. */
  function Steps<V>(b: SanitizerTypeBuilder<V>): seq<Visitor<V>>
  {
    b.visitors + PropertyVisitors(b.properties)
  }

  /** Running the compiled pipeline of `b` on `x`. */
  function Run<V>(b: SanitizerTypeBuilder<V>, x: V): Outcome<V>
  {
    RunAll(Steps(b), x)
  }

  /** BuildVisitor, with an empty pipeline compiling to the identity. */
  function Build<V(!new)>(b: SanitizerTypeBuilder<V>): (v: Visitor<V>)
    ensures Steps(b) == [] ==> forall x :: v(x) == Outcome(x, None)
  {
    x => Run(b, x)
  }

  /**
   * Property(path) followed by the caller's configuration of the returned
   * child builder. `accessor` is reflection on V: the get/set pair of a
   * property, looked up by its PropertyInfo; the bridge uses the pair of the
   * property the path resolved to. The path is checked first, then that the
   * property has no sub-pipeline yet, and only then does the child
   * configuration run.
   */
  function Property<V(!new), C(!new)>(
    self: SanitizerTypeBuilder<V>,
    path: Expr,
    accessor: PropertyInfo -> Field<V, C>,
    configure: SanitizerTypeBuilder<C> -> Result<SanitizerTypeBuilder<C>>
  ): (r: Result<SanitizerTypeBuilder<V>>)
    ensures ResolveWritable(path).Err? ==> r == Err(ResolveWritable(path).error)
    ensures ResolveWritable(path).Ok? && FirstHop(path) in PropertyKeys(self.properties) ==>
              r == Err(DuplicateKey(FirstHop(path).name))
    ensures r.Ok? <==>
              && ResolveWritable(path).Ok?
              && FirstHop(path) !in PropertyKeys(self.properties)
              && configure(Empty()).Ok?
    ensures r.Ok? ==>
              && r.value.visitors == self.visitors
              && |r.value.properties| == |self.properties| + 1
              && r.value.properties[..|self.properties|] == self.properties
              && r.value.properties[|self.properties|].property == FirstHop(path)
    ensures r.Ok? ==>
              forall p :: r.value.properties[|self.properties|].visitor(p)
                            == Bridge(accessor(FirstHop(path)), Build(configure(Empty()).value))(p)
  {
    var info :- ResolveWritable(path);
    if info in PropertyKeys(self.properties) then Err(DuplicateKey(info.name))
    else
      var child :- configure(Empty());
      Ok(SanitizerTypeBuilder(self.visitors, self.properties + [PropertyEntry(info, Bridge(accessor(info), Build(child)))]))
  }

  // ---------------------------------------------------------------------------
  // Ordering of the compiled pipeline

  /** Every whole-value visitor runs before every property's sub-pipeline. */
  lemma VisitorsRunBeforeProperties<V>(b: SanitizerTypeBuilder<V>, x: V)
    ensures Run(b, x) == Then(RunAll(b.visitors, x), PropertyVisitors(b.properties))
  {
    RunAllAppend(b.visitors, PropertyVisitors(b.properties), x);
  }

  /** On a builder without properties, a visitor added by Transform runs after all earlier ones. */
  lemma TransformRunsLast<V>(self: SanitizerTypeBuilder<V>, visitor: Visitor<V>, x: V)
    requires self.properties == []
    ensures Run(Transform(self, visitor), x) == Then(Run(self, x), [visitor])
  {
    assert Steps(self) == self.visitors;
    assert Steps(Transform(self, visitor)) == self.visitors + [visitor];
    RunAllAppend(self.visitors, [visitor], x);
  }

  /** A step appended to a builder without properties runs after all earlier ones. */
  lemma AppendedStepRunsLast<V(!new)>(self: SanitizerTypeBuilder<V>, r: SanitizerTypeBuilder<V>, f: V -> Result<V>, x: V)
    requires self.properties == [] && AppendsStep(self, r, f)
    ensures Run(r, x) == (var o := Run(self, x); if o.error.Some? then o else StepOutcome(f, o.value))
  {
    var n := |self.visitors|;
    var last := r.visitors[n];
    assert r.visitors == self.visitors + [last];
    assert Steps(r) == self.visitors + [last];
    assert Steps(self) == self.visitors;
    RunAllAppend(self.visitors, [last], x);
    var o := Run(self, x);
    if o.error.None? {
      assert RunAll([last], o.value) == (var o2 := last(o.value); if o2.error.Some? then o2 else RunAll([], o2.value));
    }
  }

  /** A property registered by Property runs after everything registered before it. */
  lemma PropertyRunsLast<V(!new), C(!new)>(
    self: SanitizerTypeBuilder<V>,
    path: Expr,
    accessor: PropertyInfo -> Field<V, C>,
    configure: SanitizerTypeBuilder<C> -> Result<SanitizerTypeBuilder<C>>,
    x: V)
    requires Property(self, path, accessor, configure).Ok?
    ensures Run(Property(self, path, accessor, configure).value, x)
              == Then(Run(self, x), [Bridge(accessor(FirstHop(path)), Build(configure(Empty()).value))])
  {
    var r := Property(self, path, accessor, configure).value;
    var n := |self.properties|;
    var bridge := Bridge(accessor(FirstHop(path)), Build(configure(Empty()).value));
    var last := r.properties[n].visitor;
    assert r.properties == self.properties + [r.properties[n]];
    assert PropertyVisitors(r.properties) == PropertyVisitors(self.properties) + [last];
    assert Steps(r) == Steps(self) + [last];
    RunAllAppend(Steps(self), [last], x);
    var o := Run(self, x);
    if o.error.None? {
      assert last(o.value) == bridge(o.value);
      assert RunAll([last], o.value) == RunAll([bridge], o.value);
    }
  }

  // ---------------------------------------------------------------------------
  // BuildVisitor as written

  /**
   * BuildVisitor as written: combining no delegates yields null, so a builder
   * with nothing registered compiles to no visitor at all.
   */
  function BuildVisitorAsWritten<V(!new)>(b: SanitizerTypeBuilder<V>): (r: Option<Visitor<V>>)
    ensures r.None? <==> b.visitors == [] && b.properties == []
    ensures r.Some? ==> forall x :: r.value(x) == Run(b, x)
  {
    if Steps(b) == [] then None else Some(Build(b))
  }

  /**
   * The visitor BuildVisitor adds for a property whose type is the builder's
   * own type, as written: the child's visitor already has the parent's
   * delegate type, so it is added without the bridge and runs on the whole value.
   */
  function SameTypePropertyVisitorAsWritten<V(!new)>(field: Field<V, V>, child: Visitor<V>): (v: Visitor<V>)
    ensures forall p :: v(p) == child(p)
  {
    child
  }
}
