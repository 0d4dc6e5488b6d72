/**
 * The library's usage scenarios, worked through the model: the sanitizers
 * its tests configure, the property paths its tests reject, and a parent
 * type with a property of its own type.
 */
module Scenarios {
  import opened Outcomes
  import opened TypeBuilders
  import opened Sanitizers
  import opened Registry
  import opened ConfigurationProvider
  import opened SanitizerFactory
  import Strings
  import StringExtensions

  const StringTag := TypeTag("String")
  const TestClassTag := TypeTag("TestClass")

  /** String.Replace(old, "") for a one-character `old`: every occurrence of `c` dropped. */
  function RemoveAll(x: string, c: char): (r: string)
    ensures |r| <= |x|
    ensures forall i :: 0 <= i < |r| ==> r[i] != c
    ensures c !in x ==> r == x
  {
    if x == [] then []
    else (if x[0] == c then [] else [x[0]]) + RemoveAll(x[1..], c)
  }

  /** Removing a character distributes over concatenation. */
  lemma {:induction false} RemoveAllAppend(a: string, b: string, c: char)
    ensures RemoveAll(a + b, c) == RemoveAll(a, c) + RemoveAll(b, c)
  {
    if a == [] {
      assert a + b == b;
    } else {
      assert (a + b)[1..] == a[1..] + b;
      RemoveAllAppend(a[1..], b, c);
    }
  }

  /** Exactly the occurrences of `c` go: every other character keeps its count. */
  lemma {:induction false} RemoveAllCounts(x: string, c: char)
    ensures multiset(RemoveAll(x, c)) == multiset(x)[c := 0]
  {
    if x != [] {
      assert x == [x[0]] + x[1..];
      RemoveAllCounts(x[1..], c);
    }
  }

  /** The characters kept stay in their order: removing from `x + [d]` keeps `d` last unless it is `c`. */
  lemma RemoveAllSnoc(x: string, d: char, c: char)
    ensures RemoveAll(x + [d], c) == RemoveAll(x, c) + (if d == c then [] else [d])
  {
    RemoveAllAppend(x, [d], c);
    assert RemoveAll([d], c) == (if d == c then [] else [d]) + RemoveAll([], c);
  }

  lemma DashedNumberParts()
    ensures "555-555-5555" == "555" + ("-" + ("555" + ("-" + "5555")))
    ensures " 555-555-5555 " == " " + ("555-555-5555" + " ")
    ensures "555" + ("555" + "5555") == "5555555555"
    ensures " " + ("5555555555" + " ") == " 5555555555 "
    ensures "1-" + "5555555555" == "1-5555555555"
  {
  }

  /** A string of three dash-free groups joined by dashes loses exactly its two dashes. */
  lemma RemoveDashesBetween(a: string, b: string, c: string)
    requires '-' !in a && '-' !in b && '-' !in c
    ensures RemoveAll(a + ("-" + (b + ("-" + c))), '-') == a + (b + c)
  {
    var dash := "-";
    assert RemoveAll(dash, '-') == [] by {
      assert dash[0] == '-' && dash[1..] == [];
    }
    var tail := dash + c;
    assert RemoveAll(tail, '-') == c by {
      RemoveAllAppend(dash, c, '-');
    }
    var middle := b + tail;
    assert RemoveAll(middle, '-') == b + c by {
      RemoveAllAppend(b, tail, '-');
    }
    var rest := dash + middle;
    assert RemoveAll(rest, '-') == b + c by {
      RemoveAllAppend(dash, middle, '-');
    }
    RemoveAllAppend(a, rest, '-');
  }

  /** The phone-number test data with its dashes removed. */
  lemma RemoveDashesExample()
    ensures RemoveAll("555-555-5555", '-') == "5555555555"
  {
    DashedNumberParts();
    assert '-' !in "555" && '-' !in "5555";
    RemoveDashesBetween("555", "555", "5555");
  }

  /** The padded phone-number test data with its dashes removed. */
  lemma RemoveDashesPaddedExample()
    ensures RemoveAll(" 555-555-5555 ", '-') == " 5555555555 "
  {
    DashedNumberParts();
    RemoveDashesExample();
    assert RemoveAll(" ", '-') == " " by {
      assert '-' !in " ";
    }
    RemoveAllAppend(" ", "555-555-5555" + " ", '-');
    RemoveAllAppend("555-555-5555", " ", '-');
  }

  /** The test visitor `input = input.Trim('-')`. */
  function TrimDashes(): Visitor<string>
  {
    Step(x => Ok(Strings.Trim(x, "-")))
  }

  lemma TrimDashesExample()
    ensures TrimDashes()("--success--") == Outcome("success", None)
  {
    var x := "--success--";
    Strings.LeadingCountUnique(x, "-", 2);
    Strings.TrailingCountUnique(x[2..], "-", 2);
    assert x[2..][..|x[2..]| - 2] == "success";
  }

  /** A provider whose delegate registers the dash-trimming visitor for strings. */
  method ProviderTrimsDashes() returns (r: Outcome<string>)
    ensures r == Outcome("success", None)
  {
    var script := [ForTypeVisitor(StringTag, TrimDashes())];
    RegisteredFirstCall(map[], script);
    assert script[1..] == [];
    var provider := SanitizerConfigurationProvider.New(script);
    var sanitizer := provider.value.CreateSanitizer(StringTag);
    assert Run(SanitizerTypeBuilder([TrimDashes()], []), "--success--") == TrimDashes()("--success--") by {
      assert Steps(SanitizerTypeBuilder([TrimDashes()], [])) == [TrimDashes()];
    }
    TrimDashesExample();
    r := sanitizer.value.Sanitize("--success--");
  }

  /** Sanitizer.Create with the dash-trimming visitor. */
  method CreateTrimsDashes() returns (r: Outcome<string>)
    ensures r == Outcome("success", None)
  {
    var sanitizer := CreateFromVisitor(StringTag, TrimDashes());
    TrimDashesExample();
    r := sanitizer.value.Sanitize("--success--");
  }

  /** Sanitizer.Create(config) followed by Sanitize(x). */
  method CreateAndSanitize<V(!new)>(t: TypeTag, config: SanitizerTypeBuilder<V> -> Result<SanitizerTypeBuilder<V>>, x: V)
    returns (r: Outcome<V>)
    requires config(Empty()).Ok?
    ensures r == Run(config(Empty()).value, x)
  {
    var sanitizer := Create(t, config);
    r := sanitizer.value.Sanitize(x);
  }

  // ------------------------------------------------------------ a parent type

  /** The tests' TestClass, with its one settable string property. */
  datatype TestClass = TestClass(phoneNumber: string)

  const PhoneNumberInfo := PropertyInfo("PhoneNumber", true)

  /** `y => y.PhoneNumber` */
  const PhoneNumberPath := MemberAccess(Parameter, PropertyMember(PhoneNumberInfo))

  function PhoneNumberField(): (f: Field<TestClass, string>)
    ensures WellBehaved(f)
  {
    Field((c: TestClass) => c.phoneNumber, (c: TestClass, v: string) => c.(phoneNumber := v))
  }

  /**
   * Reflection on TestClass. TestClass has the one property PhoneNumber, so
   * every lookup that can succeed finds it; the argument is not inspected.
   */
  function TestClassProperty(info: PropertyInfo): Field<TestClass, string>
  {
    PhoneNumberField()
  }

  /** The test visitor `input = input.Replace("-", "")`. */
  function RemoveDashes(): Visitor<string>
  {
    Step(x => Ok(RemoveAll(x, '-')))
  }

  /** The test visitor `input = $"1-{input}"`. */
  function PrefixOne(): Visitor<string>
  {
    Step(x => Ok("1-" + x))
  }

  /** The child pipeline of the composite test: remove dashes, trim white space, prefix "1-". */
  function CompositeChild(c: SanitizerTypeBuilder<string>): Result<SanitizerTypeBuilder<string>>
  {
    Ok(Transform(StringExtensions.Trim(Transform(c, RemoveDashes()), []), PrefixOne()))
  }

  /** The child pipeline of the property test: remove dashes. */
  function RemoveDashesChild(c: SanitizerTypeBuilder<string>): Result<SanitizerTypeBuilder<string>>
  {
    Ok(Transform(c, RemoveDashes()))
  }

  /** The property test's configuration: `Property(y => y.PhoneNumber).Transform(remove dashes)`. */
  function PhoneNumberConfig(b: SanitizerTypeBuilder<TestClass>): Result<SanitizerTypeBuilder<TestClass>>
  {
    Property(b, PhoneNumberPath, TestClassProperty, RemoveDashesChild)
  }

  lemma RemoveDashesChildExample()
    ensures Run(RemoveDashesChild(Empty()).value, "555-555-5555") == Outcome("5555555555", None)
  {
    TransformRunsLast(Empty<string>(), RemoveDashes(), "555-555-5555");
    assert Run(Empty<string>(), "555-555-5555") == Outcome("555-555-5555", None);
    RemoveDashesExample();
  }

  lemma PhoneNumberConfigExample()
    ensures PhoneNumberConfig(Empty()).Ok?
    ensures Run(PhoneNumberConfig(Empty()).value, TestClass("555-555-5555"))
              == Outcome(TestClass("5555555555"), None)
  {
    var p := TestClass("555-555-5555");
    var bridge := Bridge(PhoneNumberField(), Build(RemoveDashesChild(Empty()).value));
    assert Run(PhoneNumberConfig(Empty()).value, p) == Then(Run(Empty<TestClass>(), p), [bridge]) by {
      PropertyRunsLast(Empty<TestClass>(), PhoneNumberPath, TestClassProperty, RemoveDashesChild, p);
    }
    assert Run(Empty<TestClass>(), p) == Outcome(p, None);
    assert bridge(p) == Outcome(TestClass("5555555555"), None) by {
      RemoveDashesChildExample();
    }
    assert RunAll([bridge], p) == (var o := bridge(p); if o.error.Some? then o else RunAll([], o.value));
  }

  /** A property-scoped pipeline rewrites only the property: "555-555-5555" becomes "5555555555". */
  method PropertyRemovesDashes() returns (r: Outcome<TestClass>)
    ensures r == Outcome(TestClass("5555555555"), None)
  {
    PhoneNumberConfigExample();
    r := CreateAndSanitize(TestClassTag, PhoneNumberConfig, TestClass("555-555-5555"));
  }

  /** White space trimmed from the dash-free test data. */
  lemma TrimSpacesExample()
    ensures Strings.Trim(" 5555555555 ", []) == "5555555555"
  {
    var s := " 5555555555 ";
    Strings.LeadingCountUnique(s, [], 1);
    Strings.TrailingCountUnique(s[1..], [], 1);
    assert s[1..][..|s[1..]| - 1] == "5555555555";
  }

  /** The first stage of the composite child: dashes removed. */
  lemma CompositeFirstStage()
    ensures Run(Transform(Empty<string>(), RemoveDashes()), " 555-555-5555 ") == Outcome(" 5555555555 ", None)
  {
    var x := " 555-555-5555 ";
    TransformRunsLast(Empty<string>(), RemoveDashes(), x);
    assert Run(Empty<string>(), x) == Outcome(x, None);
    RemoveDashesPaddedExample();
  }

  /** The first two stages of the composite child: dashes removed, then white space trimmed. */
  lemma CompositeSecondStage()
    ensures Run(StringExtensions.Trim(Transform(Empty<string>(), RemoveDashes()), []), " 555-555-5555 ")
              == Outcome("5555555555", None)
  {
    var b0 := Transform(Empty<string>(), RemoveDashes());
    AppendedStepRunsLast(b0, StringExtensions.Trim(b0, []), y => Ok(Strings.Trim(y, [])), " 555-555-5555 ");
    CompositeFirstStage();
    TrimSpacesExample();
  }

  /**
   * Transformations run in the order they were configured: dashes removed,
   * then white space trimmed, then "1-" prefixed, " 555-555-5555 " giving "1-5555555555".
   */
  lemma CompositeChildOrder()
    ensures Run(CompositeChild(Empty()).value, " 555-555-5555 ") == Outcome("1-5555555555", None)
  {
    var b1 := StringExtensions.Trim(Transform(Empty<string>(), RemoveDashes()), []);
    var b2 := Transform(b1, PrefixOne());
    assert CompositeChild(Empty()) == Ok(b2);
    assert Run(b2, " 555-555-5555 ") == Outcome("1-5555555555", None) by {
      TransformRunsLast(b1, PrefixOne(), " 555-555-5555 ");
      CompositeSecondStage();
      assert PrefixOne()("5555555555") == Outcome("1-5555555555", None) by {
        DashedNumberParts();
      }
      assert RunAll([PrefixOne()], "5555555555")
               == (var o := PrefixOne()("5555555555"); if o.error.Some? then o else RunAll([], o.value));
    }
  }

  /** The composite test's configuration: `Property(x => x.PhoneNumber)` with the composite child pipeline. */
  function CompositeConfig(b: SanitizerTypeBuilder<TestClass>): Result<SanitizerTypeBuilder<TestClass>>
  {
    Property(b, PhoneNumberPath, TestClassProperty, CompositeChild)
  }

  lemma CompositeConfigExample()
    ensures CompositeConfig(Empty()).Ok?
    ensures Run(CompositeConfig(Empty()).value, TestClass(" 555-555-5555 "))
              == Outcome(TestClass("1-5555555555"), None)
  {
    var p := TestClass(" 555-555-5555 ");
    var bridge := Bridge(PhoneNumberField(), Build(CompositeChild(Empty()).value));
    assert Run(CompositeConfig(Empty()).value, p) == Then(Run(Empty<TestClass>(), p), [bridge]) by {
      PropertyRunsLast(Empty<TestClass>(), PhoneNumberPath, TestClassProperty, CompositeChild, p);
    }
    assert Run(Empty<TestClass>(), p) == Outcome(p, None);
    assert bridge(p) == Outcome(TestClass("1-5555555555"), None) by {
      CompositeChildOrder();
    }
    assert RunAll([bridge], p) == (var o := bridge(p); if o.error.Some? then o else RunAll([], o.value));
  }

  /** Sanitizer.Create with the composite configuration. */
  method CompositeRewritesPhoneNumber() returns (r: Outcome<TestClass>)
    ensures r == Outcome(TestClass("1-5555555555"), None)
  {
    CompositeConfigExample();
    r := CreateAndSanitize(TestClassTag, CompositeConfig, TestClass(" 555-555-5555 "));
  }

  // --------------------------------------------------------- rejected paths

  /** A provider whose type configuration names an unusable property path fails to construct, with that path's error. */
  method ProviderRejectsPath<V(!new), C(!new)>(t: TypeTag, path: Expr, accessor: PropertyInfo -> Field<V, C>,
                                                 configure: SanitizerTypeBuilder<C> -> Result<SanitizerTypeBuilder<C>>)
    returns (r: Result<SanitizerConfigurationProvider<V>>)
    requires ResolveWritable(path).Err?
    ensures r.Err? && r.error == ResolveWritable(path).error && r.error.InvalidOperation?
  {
    var script := [ForTypeConfigured(t, (b: SanitizerTypeBuilder<V>) => Property(b, path, accessor, configure))];
    RegisteredFirstCall(map[], script);
    r := SanitizerConfigurationProvider.New(script);
  }

  /** The TestClass property the tests call ReturnSelf() before reaching. */
  const ReturnSelfPath := MemberAccess(Call(Parameter, "ReturnSelf"), PropertyMember(PhoneNumberInfo))

  /** The paths the provider tests reject: each raises an InvalidOperationException. */
  lemma RejectedTestPaths()
    // x => x.PhoneNumber.ToLower()
    ensures ResolveWritable(Call(PhoneNumberPath, "ToLower")) == Err(InvalidOperation(NotMemberAccessMessage))
    // x => x.ReturnSelf().PhoneNumber
    ensures ResolveWritable(ReturnSelfPath) == Err(InvalidOperation(NotMemberAccessMessage))
    // x => x
    ensures ResolveWritable(Parameter) == Err(InvalidOperation(NotMemberAccessMessage))
    // _ => value, for a constant string value
    ensures ResolveWritable(Constant) == Err(InvalidOperation(NotMemberAccessMessage))
    // _ => value.Length
    ensures ResolveWritable(MemberAccess(Constant, PropertyMember(PropertyInfo("Length", false))))
              == Err(InvalidOperation(NotMemberAccessMessage))
    // ClassWithoutSetter: y => y.Value and y => y.PrivateSetter, neither with a public setter
    ensures ResolveWritable(MemberAccess(Parameter, PropertyMember(PropertyInfo("Value", false))))
              == Err(InvalidOperation(NoSetterMessage))
    ensures ResolveWritable(MemberAccess(Parameter, PropertyMember(PropertyInfo("PrivateSetter", false))))
              == Err(InvalidOperation(NoSetterMessage))
  {
  }

  // ------------------------------------------- a property of the parent's type

  /** A linked node whose `Successor` property has the node's own type. */
  datatype Node = Nil | Node(title: string, successor: Node)

  function NextField(): Field<Node, Node>
  {
    Field((n: Node) => if n.Node? then n.successor else Nil,
          (n: Node, m: Node) => if n.Node? then n.(successor := m) else n)
  }

  /** The child pipeline `Title = "clean"`. */
  function Relabel(): Visitor<Node>
  {
    Step((n: Node) => Ok(if n.Node? then n.(title := "clean") else n))
  }

  /**
   * Property(n => n.Successor) configured to retitle: as written, the child's
   * visitor runs on the parent node itself, so the parent is retitled and
   * the successor is not; through the bridge, only the successor is retitled.
   */
  lemma SameTypePropertyCounterexample()
    ensures SameTypePropertyVisitorAsWritten(NextField(), Relabel())(Node("a", Node("b", Nil)))
              == Outcome(Node("clean", Node("b", Nil)), None)
    ensures Bridge(NextField(), Relabel())(Node("a", Node("b", Nil)))
              == Outcome(Node("a", Node("clean", Nil)), None)
  {
    var parent := Node("a", Node("b", Nil));
    assert Relabel()(parent) == Outcome(Node("clean", Node("b", Nil)), None);
    assert NextField().read(parent) == Node("b", Nil);
    assert Relabel()(Node("b", Nil)) == Outcome(Node("clean", Nil), None);
    assert NextField().write(parent, Node("clean", Nil)) == Node("a", Node("clean", Nil));
  }
}
