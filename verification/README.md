# Hygiene, modelled in Dafny

Hygiene is a small .NET library for sanitizing values in place. A caller
hands a `SanitizerConfigurationProvider` a configuration delegate. That
delegate calls `ForType<T>` on a `SanitizerBuilder`, once per type, and so
builds a registry mapping each type to a `SanitizerTypeBuilder<T>`. A type
builder holds two things, both in registration order:

- a list of whole-value visitors (`Transform`);
- per property, a sub-pipeline (`Property(x => x.P)`) that is bridged into
  the parent by reading the property, running the child pipeline on it and
  writing the result back.

`BuildVisitor` compiles a type builder into one delegate. It runs every
whole-value visitor first and then every property's sub-pipeline, so a
`Transform` added after a `Property` still runs before that property. The
static `Sanitizer.Create` overloads and `NoOp` are shortcuts for a provider
that configures a single type. The extension methods add common
transformations for strings, `int`, `decimal` and `TimeSpan`.

The model has one module per source file:

| module | file | models |
|---|---|---|
| `Outcomes` | `outcomes.dfy` | the exceptions the library raises, `Result` and the outcome of a visitor: the value left behind and the exception that escaped |
| `TypeBuilders` | `type_builder.dfy` | `SanitizerTypeBuilder<T>` as a value; path resolution in `Property`; the reflection bridge; `BuildVisitor` |
| `Sanitizers` | `delegate_sanitizer.dfy` | `DelegateSanitizer<T>` |
| `Registry` | `sanitizer_builder.dfy` | `SanitizerBuilder` as a class whose `_sanitizers` dictionary is a `map` field |
| `ConfigurationProvider` | `configuration_provider.dfy` | `SanitizerConfigurationProvider` as a class. The configuration delegate is modelled as the list of `ForType` calls it makes, run by a loop. |
| `SanitizerFactory` | `sanitizer.dfy` | `Sanitizer.Create` and `Sanitizer.NoOp` |
| `Strings` | `strings.dfy` | the .NET string operations the extensions call: `Trim`, `TrimStart`, `TrimEnd`, `Substring`, `Remove`, `PadLeft` and `PadRight`, including their `ArgumentOutOfRangeException` cases |
| `StringExtensions` | `string_extensions.dfy` | the string extension methods on a type builder |
| `IntegerExtensions` | `integer_extensions.dfy` | `Max`, `Min` and `Abs` on 32-bit integers. `Math.Abs(int.MinValue)` overflows. |
| `DecimalExtensions` | `decimal_extensions.dfy` | `Max`, `Min`, `Floor`, `Ceiling` and `Truncate`, on `real` |
| `TimeSpanExtensions` | `timespan_extensions.dfy` | `Add`, `Subtract` and `Negate` on 64-bit ticks, where overflow is an exception |
| `Scenarios` | `scenarios.dfy` | the library's unit tests, worked through the model |

An exception is a value. A visitor returns an `Outcome`, which holds the
value the `ref` parameter holds afterwards and the exception that escaped,
if any. A thrown exception stops the remaining visitors. When a property's
pipeline throws, the exception reaches the caller wrapped in
`TargetInvocation`, because the bridge calls the child through
`Delegate.DynamicInvoke` (``Hygiene/SanitizerTypeBuilder`1.cs`` line 121). The code
is followed here; a plainer reading would have the child's exception
propagate unchanged.

## Model

In the source cells of this table and of the findings table, the file names
``SanitizerTypeBuilder`1.cs`` and ``DelegateSanitizer`1.cs`` are written with `_`
in place of the backtick.

| member | source | states |
|---|---|---|
| TypeBuilders.RunAll | Hygiene/SanitizerTypeBuilder_1.cs:108-127 | Running no visitors leaves the value as it is and throws nothing; running one visitor is invoking that visitor. |
| TypeBuilders.Empty | Hygiene/SanitizerTypeBuilder_1.cs:15-18 | With the corrected BuildVisitor, a fresh builder's pipeline returns every value unchanged, with no exception. |
| TypeBuilders.Transform | Hygiene/SanitizerTypeBuilder_1.cs:71-87 | The new visitor takes its place after the earlier whole-value visitors and before every property's visitor; the properties are unchanged. |
| TypeBuilders.TransformValue | Hygiene/SanitizerTypeBuilder_1.cs:94-95 | Appends exactly one whole-value step `x = mutator(x)`, which leaves the value as it was when the mutator throws, and changes nothing else. |
| TypeBuilders.Build | Hygiene/SanitizerTypeBuilder_1.cs:108-127 | The corrected BuildVisitor: a builder with nothing registered compiles to a visitor that returns every value unchanged, with no exception. |
| TypeBuilders.RunAllAppend | Hygiene/SanitizerTypeBuilder_1.cs:108-127 | Running a combined delegate list runs the first part, then the second part on its result, unless the first part threw. |
| TypeBuilders.ResolvePath | Hygiene/SanitizerTypeBuilder_1.cs:34-52 | A path resolves exactly when it is a chain of property accesses down to the parameter, and it resolves to the hop nearest the parameter. A parameter, constant or call node is rejected with "Only member access expressions are supported."; every failure is an InvalidOperationException. |
| TypeBuilders.ResolveWritable | Hygiene/SanitizerTypeBuilder_1.cs:52-55 | A path is accepted exactly when it resolves and the property has a public setter. A resolved property without one is rejected with the no-setter message. |
| TypeBuilders.NestedPathResolvesToFirstHop | Hygiene/SanitizerTypeBuilder_1.cs:48-50 | `x => x.A.B` resolves to `A`, not to `B`. |
| TypeBuilders.BridgeWritesChildResult | Hygiene/SanitizerTypeBuilder_1.cs:117-124 | For a stored property, the bridged visitor completes exactly when the child pipeline does. When it completes, the property then holds the child's result. When it throws, the parent is unchanged and the error is the child's, wrapped in TargetInvocation. |
| TypeBuilders.BridgeKeepsOtherProperties | Hygiene/SanitizerTypeBuilder_1.cs:117-124 | Whatever a write of the bridged property leaves alone, the bridge leaves alone: every other property reads the same afterwards, whether the child completes or throws. |
| TypeBuilders.BridgeSplits | Hygiene/SanitizerTypeBuilder_1.cs:117-124 | Two bridged halves of a property's pipeline, run one after the other, give the same result as bridging the whole pipeline, and one completes exactly when the other does. |
| TypeBuilders.PropertyVisitors | Hygiene/SanitizerTypeBuilder_1.cs:111-125 | Property visitors are taken one per registered property, in registration order. |
| TypeBuilders.Property | Hygiene/SanitizerTypeBuilder_1.cs:26-64 | A bad path yields its InvalidOperation error. A property already configured yields Dictionary.Add's duplicate-key error. The call succeeds exactly when the path is writable, the property is new and the child configuration succeeds. On success the whole-value visitors are unchanged, one property entry is appended for the resolved property, and its visitor is the bridge around the compiled child pipeline, reading and writing through reflection's get/set pair for the resolved property. |
| TypeBuilders.VisitorsRunBeforeProperties | Hygiene/SanitizerTypeBuilder_1.cs:110-125 | The compiled pipeline runs every whole-value visitor, then every property's visitor. |
| TypeBuilders.TransformRunsLast | Hygiene/SanitizerTypeBuilder_1.cs:71-75 | On a builder without properties, a visitor added by Transform runs after everything configured before it. |
| TypeBuilders.AppendedStepRunsLast | Hygiene/SanitizerTypeBuilder_1.cs:94-95 | On a builder without properties, an appended `x = f(x)` step runs last. If `f` throws, the value is left as the earlier steps made it. |
| TypeBuilders.PropertyRunsLast | Hygiene/SanitizerTypeBuilder_1.cs:58-64 | A property registered by Property runs after everything registered before it, through the bridge around its child's compiled pipeline. |
| TypeBuilders.BuildVisitorAsWritten | Hygiene/SanitizerTypeBuilder_1.cs:108-127 | As written, BuildVisitor returns null exactly when nothing is registered; otherwise the delegate runs the pipeline. |
| TypeBuilders.SameTypePropertyVisitorAsWritten | Hygiene/SanitizerTypeBuilder_1.cs:115-116 | As written, the visitor added for a property whose type is the parent's own type is the child's visitor itself, applied to the whole parent. |
| Sanitizers.SanitizeAsWritten | Hygiene/DelegateSanitizer_1.cs:21-33 | Sanitizing through a null compiled visitor throws NullReferenceException and leaves the value unchanged. |
| Sanitizers.EmptyPipelineThrowsAsWritten | Hygiene/SanitizerTypeBuilder_1.cs:110 | As written, a sanitizer compiled from an unconfigured builder throws NullReferenceException on every value. |
| Sanitizers.EmptyPipelineIsIdentity | Hygiene/DelegateSanitizer_1.cs:29-33 | With the corrected BuildVisitor, that sanitizer returns every value unchanged and does not throw. |
| Registry.Insert | Hygiene/SanitizerBuilder.cs:40 | Dictionary.Add throws the duplicate-key error exactly when the type is already present. Otherwise it adds the key with the new builder and keeps every other entry. |
| Registry.SanitizerBuilder.constructor | Hygiene/SanitizerBuilder.cs:12-15 | A new registry is empty. |
| Registry.SanitizerBuilder.ForTypeVisitor | Hygiene/SanitizerBuilder.cs:23-42 | A type already registered throws the duplicate-key error and leaves the registry unchanged. Otherwise it registers and returns a builder whose only transformation is the visitor. |
| Registry.SanitizerBuilder.ForType | Hygiene/SanitizerBuilder.cs:50-56 | A throwing configuration leaves the registry unchanged. A duplicate type throws and leaves it unchanged. Otherwise the configured builder is registered under the type and returned. |
| Registry.SanitizerBuilder.BuildType | Hygiene/SanitizerBuilder.cs:58-62 | Succeeds exactly when the type is registered; otherwise the error is KeyNotFound naming the type. The sanitizer runs that type's compiled pipeline. |
| ConfigurationProvider.Registered | Hygiene/SanitizerConfigurationProvider.cs:16-18 | After the delegate's calls, the registry holds exactly the old keys plus each call's type, and keeps every old entry. On success the types were all new and pairwise distinct, and each type maps to the builder its call configured. |
| ConfigurationProvider.FailingCallFailsConfiguration | Hygiene/SanitizerConfigurationProvider.cs:16-18 | If any call's type configuration throws, constructing the provider throws. |
| ConfigurationProvider.RegisteredSucceeds | Hygiene/SanitizerConfigurationProvider.cs:16-18 | Conversely, when every call's type configuration completes, no call's type is already registered and no type is registered twice, the configuration succeeds. |
| ConfigurationProvider.SanitizerConfigurationProvider.Fresh | Hygiene/SanitizerConfigurationProvider.cs:10 | Each provider owns a fresh, empty registry. |
| ConfigurationProvider.SanitizerConfigurationProvider.New | Hygiene/SanitizerConfigurationProvider.cs:16-18 | The constructor succeeds exactly when the configuration does, and otherwise fails with its error. On success the provider's fresh registry is the configured one. |
| ConfigurationProvider.SanitizerConfigurationProvider.CreateSanitizer | Hygiene/SanitizerConfigurationProvider.cs:25 | Succeeds exactly when the type is registered; otherwise the error is KeyNotFound. The sanitizer runs the registered pipeline. |
| SanitizerFactory.Create | Hygiene/Sanitizer.cs:17-20 | A throwing type configuration makes Create throw the same error. Otherwise Create succeeds, and the sanitizer runs the configured pipeline on every value. |
| SanitizerFactory.CreateFromVisitor | Hygiene/Sanitizer.cs:28-30 | Always succeeds. The sanitizer behaves exactly like the visitor. |
| SanitizerFactory.CreateFromMutator | Hygiene/Sanitizer.cs:48-50 | Always succeeds. The sanitizer replaces the value with the mutator's result, or leaves the value unchanged and throws the mutator's error. |
| SanitizerFactory.NoOp | Hygiene/Sanitizer.cs:67-68 | Every value comes back unchanged, with no exception. |
| Strings.LeadingCount | Hygiene/Extensions/StringExtensions.cs:65 | The leading run is trimmable and maximal. |
| Strings.TrailingCount | Hygiene/Extensions/StringExtensions.cs:87 | The trailing run is trimmable and maximal. |
| Strings.TrimStart | Hygiene/Extensions/StringExtensions.cs:65 | The result is a suffix. Everything dropped is trimmable, and the result is empty or starts with a non-trimmable character. An empty trim set means white space. |
| Strings.TrimEnd | Hygiene/Extensions/StringExtensions.cs:87 | The result is a prefix. Everything dropped is trimmable, and the result is empty or ends with a non-trimmable character. |
| Strings.Trim | Hygiene/Extensions/StringExtensions.cs:43 | The result is the slice after the leading run. Everything after it is trimmable, and the result is empty or neither starts nor ends with a trimmable character. |
| Strings.TrimStartUnique | Hygiene/Extensions/StringExtensions.cs:65 | TrimStart's characterisation determines its result. |
| Strings.TrimEndUnique | Hygiene/Extensions/StringExtensions.cs:87 | TrimEnd's characterisation determines its result. |
| Strings.TrimStartUnchanged | Hygiene/Extensions/StringExtensions.cs:46-66 | TrimStart returns the string unchanged exactly when it is empty or starts with a character that is not trimmed. |
| Strings.TrimEndUnchanged | Hygiene/Extensions/StringExtensions.cs:68-88 | TrimEnd returns the string unchanged exactly when it is empty or ends with a character that is not trimmed. |
| Strings.TrimUnchanged | Hygiene/Extensions/StringExtensions.cs:24-44 | Trim returns the string unchanged exactly when neither end can be trimmed. |
| Strings.TrimStartIdempotent | Hygiene/Extensions/StringExtensions.cs:65 | TrimStart twice is TrimStart once. |
| Strings.TrimEndIdempotent | Hygiene/Extensions/StringExtensions.cs:87 | TrimEnd twice is TrimEnd once. |
| Strings.TrimIdempotent | Hygiene/Extensions/StringExtensions.cs:43 | Trim twice is Trim once. |
| Strings.TrimEndOfTrimStart | Hygiene/Extensions/StringExtensions.cs:43 | TrimStart then TrimEnd leaves the slice between the leading and the trailing run. |
| Strings.TrimStartOfTrimEnd | Hygiene/Extensions/StringExtensions.cs:43 | TrimEnd then TrimStart leaves the same slice. |
| Strings.TrimEitherOrder | Hygiene/Extensions/StringExtensions.cs:43 | Trim is TrimStart after TrimEnd. |
| Strings.SubstringFrom | Hygiene/Extensions/StringExtensions.cs:156 | Substring(startIndex) succeeds exactly when 0 <= startIndex <= length, and otherwise throws ArgumentOutOfRange("startIndex"). The result is the characters from startIndex on. |
| Strings.SubstringRange | Hygiene/Extensions/StringExtensions.cs:157 | Substring(startIndex, length) succeeds exactly when the range lies inside the string. A bad start is blamed on "startIndex", otherwise on "length". The result holds the `length` characters from startIndex. |
| Strings.RemoveFrom | Hygiene/Extensions/StringExtensions.cs:172 | Remove(startIndex) succeeds exactly when 0 <= startIndex <= length, and then keeps the first startIndex characters; otherwise it throws ArgumentOutOfRange("startIndex"). |
| Strings.RemoveRange | Hygiene/Extensions/StringExtensions.cs:173 | Remove(startIndex, count) succeeds exactly when the range lies inside the string. A negative start is blamed on "startIndex", otherwise on "count". It keeps what lies before and after the range. |
| Strings.RemoveFromThenSubstringRestores | Hygiene/Extensions/StringExtensions.cs:151-173 | Remove(i) followed by Substring(i) concatenates back to the original string. |
| Strings.RemoveFromIsLeadingSubstring | Hygiene/Extensions/StringExtensions.cs:151-173 | Remove(i) is Substring(0, i), failures included. |
| Strings.RemoveRangeComplementsSubstring | Hygiene/Extensions/StringExtensions.cs:151-173 | The prefix, the Substring(i, n) and the rest reassemble the string. Remove(i, n) is the prefix plus the rest. |
| Strings.AppendThenRemoveRestores | Hygiene/Extensions/StringExtensions.cs:19-22 | Removing from the old length undoes Add. |
| Strings.PadLeft | Hygiene/Extensions/StringExtensions.cs:217-218 | A negative width throws ArgumentOutOfRange("totalWidth"). A width no wider than the string returns it unchanged. Otherwise the result is the padding character repeated on the left, then the string, exactly `totalWidth` long. |
| Strings.PadRight | Hygiene/Extensions/StringExtensions.cs:243-244 | The same as PadLeft, with the padding on the right. |
| Strings.PaddedWidth | Hygiene/Extensions/StringExtensions.cs:212-244 | A padded string's length is the larger of the width and its own length. |
| Strings.TrimStartUndoesPadLeft | Hygiene/Extensions/StringExtensions.cs:212-218 | TrimStart by the padding character after PadLeft equals TrimStart of the original. |
| Strings.TrimEndUndoesPadRight | Hygiene/Extensions/StringExtensions.cs:238-244 | TrimEnd by the padding character after PadRight equals TrimEnd of the original. |
| StringExtensions.Add | Hygiene/Extensions/StringExtensions.cs:19-22 | Appends one step `x = x + value` and changes nothing else. |
| StringExtensions.Trim | Hygiene/SanitizerBuilderStringExtensions.cs:25-32 | Appends one Trim step. A null or empty `trimChars` trims white space. The same method appears at Hygiene/Extensions/StringExtensions.cs:37-44. |
| StringExtensions.TrimStart | Hygiene/Extensions/StringExtensions.cs:59-66 | Appends one TrimStart step. |
| StringExtensions.TrimEnd | Hygiene/Extensions/StringExtensions.cs:81-88 | Appends one TrimEnd step. |
| StringExtensions.Substring | Hygiene/Extensions/StringExtensions.cs:151-157 | Appends Substring(startIndex) when `length` is null, and Substring(startIndex, length) otherwise. |
| StringExtensions.Remove | Hygiene/Extensions/StringExtensions.cs:167-173 | Appends Remove(startIndex) when `count` is null, and Remove(startIndex, count) otherwise. |
| StringExtensions.PadLeft | Hygiene/Extensions/StringExtensions.cs:212-218 | Appends PadLeft, padding with a space when `paddingChar` is null. |
| StringExtensions.PadRight | Hygiene/Extensions/StringExtensions.cs:238-244 | Appends PadRight, padding with a space when `paddingChar` is null. |
| StringExtensions.TrimTwiceIsTrimOnce | Hygiene/Extensions/StringExtensions.cs:37-44 | Configuring Trim twice sanitizes like configuring it once. |
| StringExtensions.PadLeftThenTrimStart | Hygiene/Extensions/StringExtensions.cs:212-218 | A configured PadLeft followed by TrimStart of the same character sanitizes like TrimStart alone. |
| IntegerExtensions.MathMax | Hygiene/Extensions/IntegerExtensions.cs:8 | Math.Max is an upper bound of both arguments and equals one of them. |
| IntegerExtensions.MathMin | Hygiene/Extensions/IntegerExtensions.cs:13 | Math.Min is a lower bound of both arguments and equals one of them. |
| IntegerExtensions.MathAbs | Hygiene/Extensions/IntegerExtensions.cs:18 | Math.Abs overflows exactly on int.MinValue; otherwise the result is non-negative and is `x` or `-x`. |
| IntegerExtensions.Max | Hygiene/Extensions/IntegerExtensions.cs:5-8 | Appends one step `x = Math.Max(x, comparable)`. |
| IntegerExtensions.Min | Hygiene/Extensions/IntegerExtensions.cs:10-13 | Appends one step `x = Math.Min(x, comparable)`. |
| IntegerExtensions.Abs | Hygiene/Extensions/IntegerExtensions.cs:15-18 | Appends one step `x = Math.Abs(x)`, which can throw. |
| IntegerExtensions.ClampsKeepSatisfiedValues | Hygiene/Extensions/IntegerExtensions.cs:5-13 | A value already above the bound is unchanged by Max, a value already below it by Min, and both are idempotent. |
| IntegerExtensions.AbsIdempotent | Hygiene/Extensions/IntegerExtensions.cs:15-18 | Abs of a successful Abs is the same. |
| IntegerExtensions.MaxThenMinClamps | Hygiene/Extensions/IntegerExtensions.cs:5-13 | When it completes, a pipeline ending in Max(lo) then Min(hi), with lo <= hi, yields a value in [lo, hi]. |
| DecimalExtensions.MathMax | Hygiene/Extensions/DecimalExtensions.cs:8 | Math.Max is an upper bound of both arguments and equals one of them. |
| DecimalExtensions.MathMin | Hygiene/Extensions/DecimalExtensions.cs:13 | Math.Min is a lower bound of both arguments and equals one of them. |
| DecimalExtensions.MathFloor | Hygiene/Extensions/DecimalExtensions.cs:18 | Math.Floor is integral with `f <= x < f + 1`. |
| DecimalExtensions.MathCeiling | Hygiene/Extensions/DecimalExtensions.cs:23 | Math.Ceiling is integral with `g - 1 < x <= g`. |
| DecimalExtensions.MathTruncate | Hygiene/Extensions/DecimalExtensions.cs:34 | Math.Truncate is integral, lies between zero and `x`, and is less than 1 away from `x`. |
| DecimalExtensions.FloorUnique | Hygiene/Extensions/DecimalExtensions.cs:15-18 | Floor's bounds determine it. |
| DecimalExtensions.CeilingUnique | Hygiene/Extensions/DecimalExtensions.cs:20-23 | Ceiling's bounds determine it. |
| DecimalExtensions.TruncateIsFloorOrCeiling | Hygiene/Extensions/DecimalExtensions.cs:31-34 | Truncate is Floor for non-negative values and Ceiling for negative ones, and never increases the magnitude. |
| DecimalExtensions.RoundingKeepsIntegralValues | Hygiene/Extensions/DecimalExtensions.cs:15-34 | Floor, Ceiling and Truncate leave integral values unchanged and are idempotent. |
| DecimalExtensions.ClampsKeepSatisfiedValues | Hygiene/Extensions/DecimalExtensions.cs:5-13 | A value already on the right side of the bound is unchanged by Max or Min. |
| DecimalExtensions.Max | Hygiene/Extensions/DecimalExtensions.cs:5-8 | Appends one step `x = Math.Max(x, comparable)`. |
| DecimalExtensions.Min | Hygiene/Extensions/DecimalExtensions.cs:10-13 | Appends one step `x = Math.Min(x, comparable)`. |
| DecimalExtensions.Floor | Hygiene/Extensions/DecimalExtensions.cs:15-18 | Appends one step `x = Math.Floor(x)`. |
| DecimalExtensions.Ceiling | Hygiene/Extensions/DecimalExtensions.cs:20-23 | Appends one step `x = Math.Ceiling(x)`. |
| DecimalExtensions.Truncate | Hygiene/Extensions/DecimalExtensions.cs:31-34 | Appends one step `x = Math.Truncate(x)`. |
| TimeSpanExtensions.TimeSpan.Add | Hygiene/Extensions/TimeSpanExtensions.cs:8 | TimeSpan.Add succeeds exactly when the sum of ticks fits in 64 bits, and then adds the ticks; otherwise it throws OverflowException. |
| TimeSpanExtensions.TimeSpan.Subtract | Hygiene/Extensions/TimeSpanExtensions.cs:13 | TimeSpan.Subtract does the same for the difference. |
| TimeSpanExtensions.TimeSpan.Negate | Hygiene/Extensions/TimeSpanExtensions.cs:16 | TimeSpan.Negate overflows exactly on the minimum tick count; otherwise it negates the ticks. |
| TimeSpanExtensions.AddThenSubtractRestores | Hygiene/Extensions/TimeSpanExtensions.cs:5-13 | A successful Add, followed by Subtract of the same span, restores the original. |
| TimeSpanExtensions.NegateInvolution | Hygiene/Extensions/TimeSpanExtensions.cs:15-16 | Negating twice restores the original. |
| TimeSpanExtensions.SubtractIsAddOfNegation | Hygiene/Extensions/TimeSpanExtensions.cs:10-16 | Subtracting a negatable span is adding its negation, overflow included. |
| TimeSpanExtensions.Add | Hygiene/Extensions/TimeSpanExtensions.cs:5-8 | Appends one step `x = x.Add(value)`. |
| TimeSpanExtensions.Subtract | Hygiene/Extensions/TimeSpanExtensions.cs:10-13 | Appends one step `x = x.Subtract(value)`. |
| TimeSpanExtensions.Negate | Hygiene/Extensions/TimeSpanExtensions.cs:15-16 | Appends one step `x = x.Negate()`. |
| TimeSpanExtensions.AddThenSubtractConfigured | Hygiene/Extensions/TimeSpanExtensions.cs:5-13 | Configuring Add(v) and then Subtract(v) sanitizes like not configuring them, when the addition cannot overflow. |
| Scenarios.RemoveAll | Hygiene.Tests/TypeConfigurationSyncTests.cs:25-26 | `Replace("-", "")` leaves no dash, never lengthens the string, and leaves a dash-free string unchanged. |
| Scenarios.RemoveAllCounts | Hygiene.Tests/TypeConfigurationSyncTests.cs:25-26 | `Replace("-", "")` drops every dash and keeps every other character exactly as many times as it occurs. |
| Scenarios.RemoveAllSnoc | Hygiene.Tests/TypeConfigurationSyncTests.cs:25-26 | The characters kept stay in their original order. |
| Scenarios.RemoveAllAppend | Hygiene.Tests/TypeConfigurationSyncTests.cs:25-26 | Removing dashes distributes over concatenation. |
| Scenarios.TrimDashesExample | Hygiene.Tests/TypeConfigurationSyncTests.cs:9-17 | Trim('-') turns "--success--" into "success". |
| Scenarios.ProviderTrimsDashes | Hygiene.Tests/TypeConfigurationAsyncTests.cs:11-22 | A provider with a dash-trimming ForType gives a string sanitizer that turns "--success--" into "success". |
| Scenarios.CreateTrimsDashes | Hygiene.Tests/TypeConfigurationSyncTests.cs:9-17 | Sanitizer.Create with the same visitor does the same. |
| Scenarios.PhoneNumberField | Hygiene.Tests/TypeConfigurationSyncTests.cs:24 | TestClass.PhoneNumber behaves like a stored property. |
| Scenarios.PropertyRemovesDashes | Hygiene.Tests/TypeConfigurationSyncTests.cs:20-35 | A property pipeline that removes dashes turns PhoneNumber "555-555-5555" into "5555555555". |
| Scenarios.CompositeChildOrder | Hygiene.Tests/TypeConfigurationSyncTests.cs:43-49 | The child stages run in configuration order: remove dashes, trim, then prefix "1-". |
| Scenarios.CompositeRewritesPhoneNumber | Hygiene.Tests/TypeConfigurationSyncTests.cs:38-59 | The composite configuration turns " 555-555-5555 " into "1-5555555555". |
| Scenarios.ProviderRejectsPath | Hygiene.Tests/ConfigurationProviderTests.cs:9-78 | A type configuration with an unusable path makes the provider's constructor throw that path's InvalidOperationException. |
| Scenarios.RejectedTestPaths | Hygiene.Tests/ConfigurationProviderTests.cs:9-78 | Each path the provider tests reject is rejected: a method call, a call before the member, the identity, a constant, a member of a constant, and the two ClassWithoutSetter properties. |
| Scenarios.SameTypePropertyCounterexample | Hygiene/SanitizerTypeBuilder_1.cs:115-124 | For a node whose `Successor` property has the node's own type, the as-written visitor retitles the parent; the bridge retitles only the successor. |

## Left out

- Asynchrony is left out. A visitor runs to completion when it is invoked, so SanitizeAsync and Sanitize coincide. Task scheduling and the `ConfigureAwait` plumbing are not modelled.
- The `AsyncVisitor` and `Func<T, Task<T>>` overloads of `Sanitizer.Create` and `Transform` are left out; they behave like their synchronous counterparts once tasks are not modelled.
- The `Round` extension for decimal is left out. It depends on a digit count and a midpoint mode.
- `decimal` is modelled as `real`, so decimal's 28-digit precision and range limits are not modelled.
- The `double`, `float` and `DateTime` extensions are not part of this model.
- The string `ToUpper`, `ToLower`, `Replace` (a regular expression) and `Normalize` extensions are not modelled; they depend on culture, regular expressions and Unicode tables.
- Null strings are not modelled. A null `trimChars` array is treated as the empty array, and the code handles the two the same way.
- The `int` arguments of Substring, Remove and PadLeft/PadRight are unbounded integers; only their sign and their relation to the length matter.
- Remove(startIndex) follows .NET Core, which accepts `startIndex == Length`.
- A type builder is a value, not an object. A builder returned by `ForType` or `Property` and changed by the caller afterwards is modelled by passing the complete configuration up front. The property's child pipeline is configured when `Property` runs, not lazily when `BuildVisitor` runs.
- TypeBuilders.ResolvePath: a nested path `x.A.B` registers the first hop `A`, as the code does. The model keeps no record of the deeper hops.
- Reflection's `SetValue` on a value-type parent, where the write lands in a boxed copy, is not modelled. A parent's property is a get/set pair.
- The `expression.NodeType != Lambda` check in Property is left out: a lambda is the only expression the C# compiler produces for that parameter.
- The `is SanitizerTypeBuilder<T>` test in BuildType always holds for a registered type, so it is left out.
- Sanitizers.SanitizeAsWritten: the null compiled visitor is modelled for a top-level builder only. A property whose child builder has nothing configured also compiles to null in the code, so the bridge's `DynamicInvoke` would throw; the model's bridge runs the corrected, empty child pipeline instead.
- ConfigurationProvider.SanitizerConfigurationProvider.New: the configuration delegate is the list of ForType calls it makes. Arbitrary code inside the delegate, such as reading the registry, is not modelled.
- A type is identified by its name alone (`TypeTag`); the runtime `Type` object is not modelled.
- A registry holds builders of one value type. The source's dictionary maps each `Type` to a builder of that type, so one configuration can register a `string` pipeline and a `TestClass` pipeline together; the model expresses a configuration of several types only when they share one Dafny type.
- Strings.TrimStart, Strings.TrimEnd, Strings.Trim, Strings.SubstringFrom, Strings.SubstringRange, Strings.RemoveFrom, Strings.RemoveRange, Strings.PadLeft, Strings.PadRight: a string is a sequence of Unicode scalar values, while a .NET string is a sequence of UTF-16 code units. Lengths, indices and padding widths agree for text inside the Basic Multilingual Plane only; a character outside it counts once here and twice in .NET, so, for example, a Substring that splits a surrogate pair has no counterpart in the model.
- Registry.SanitizerBuilder.BuildType: the sanitizer runs the corrected pipeline. For a builder with nothing configured it returns every value unchanged, where the code's null delegate throws NullReferenceException (see Findings).
- ConfigurationProvider.SanitizerConfigurationProvider.CreateSanitizer: the same correction as BuildType, since it returns BuildType's sanitizer.
- SanitizerFactory.Create: the same correction, for a type configuration that registers nothing.
- TypeBuilders.Property: the bridge is always used, including for a property of the parent's own type, where the code adds the child's visitor unbridged (see Findings), and for a property whose child builder has nothing configured, where the code's child delegate is null.
- TypeBuilders.Property: for a nested path `x.A.B` the code reads and writes `A` but invokes a child pipeline compiled for the type of `B`, so `DynamicInvoke` throws an ArgumentException unless the two types coincide. The model bridges `A` through a get/set pair at the child's type and does not model that failure.
- TypeBuilders.Build: this is the corrected BuildVisitor. With nothing registered it compiles to the identity, where the code's `Delegate.Combine` returns null (see Findings; TypeBuilders.BuildVisitorAsWritten models the code).
- TypeBuilders.Empty: its ensures is about the corrected pipeline. The code's fresh builder compiles to a null delegate, and sanitizing through it throws NullReferenceException (see Findings).
- TypeBuilders.PropertyVisitors: the property visitors run in registration order. The code keeps them in a `Dictionary<PropertyInfo, …>`, whose enumeration follows insertion order in practice when nothing is removed but is not documented to; the model assumes that order.
- TypeBuilders.BridgeWritesChildResult: a child that changes a mutable object in place and then throws leaves those changes behind in the code, because only the final `SetValue` is skipped. Property values here are immutable, so a throwing child leaves the parent exactly as it was.

## Findings

| source | as written | input that shows it | evidently intended | confidence | as-written member | corrected member |
|---|---|---|---|---|---|---|
| Hygiene/SanitizerTypeBuilder_1.cs:110 | `Delegate.Combine` of an empty visitor list is null, so a builder with nothing configured compiles to a null delegate, and `Sanitize` throws NullReferenceException | `Sanitizer.Create<string>(b => { })`, then Sanitize on any value | An unconfigured sanitizer leaves the value unchanged, as `NoOp` does | not executed | Sanitizers.EmptyPipelineThrowsAsWritten | Sanitizers.EmptyPipelineIsIdentity |
| Hygiene/SanitizerTypeBuilder_1.cs:115-116 | When a property's type is the parent's own type, the child's visitor is already an `AsyncVisitor<T>`, so it is added without the read/invoke/write bridge and runs on the parent | A node type with a `Successor` property of its own type: `Property(n => n.Successor)`, configured to set `Title = "clean"`, on node "a" with successor "b" retitles "a" and leaves "b" alone | Only the successor is retitled: the bridge reads the property, runs the child on it and writes it back | not executed | TypeBuilders.SameTypePropertyVisitorAsWritten | TypeBuilders.BridgeWritesChildResult |
