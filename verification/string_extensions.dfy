/**
 * The string extensions of SanitizerTypeBuilder<string>: each appends one
 * transformation that replaces the value by the result of a System.String
 * operation. An operation that throws leaves the value as it was and stops
 * the pipeline, as any throwing transformation does.
 */
module StringExtensions {
  import opened Outcomes
  import opened TypeBuilders
  import Strings

  /** Add(value): the value becomes itself followed by `value`. */
  function Add(self: SanitizerTypeBuilder<string>, value: string): (r: SanitizerTypeBuilder<string>)
    ensures AppendsStep(self, r, x => Ok(x + value))
  {
    TransformValue(self, x => Ok(x + value))
  }

  /**
   * Trim(trimChars), declared alike in both string-extension classes. A null
   * or empty `trimChars` (both are the empty sequence here) selects the
   * whitespace trim, which is what String.Trim does with an empty set too.
   */
  function Trim(self: SanitizerTypeBuilder<string>, trimChars: seq<char>): (r: SanitizerTypeBuilder<string>)
    ensures AppendsStep(self, r, x => Ok(Strings.Trim(x, trimChars)))
  {
    TransformValue(self, x => Ok(Strings.Trim(x, trimChars)))
  }

  /** TrimStart(trimChars): trims the front only. */
  function TrimStart(self: SanitizerTypeBuilder<string>, trimChars: seq<char>): (r: SanitizerTypeBuilder<string>)
    ensures AppendsStep(self, r, x => Ok(Strings.TrimStart(x, trimChars)))
  {
    TransformValue(self, x => Ok(Strings.TrimStart(x, trimChars)))
  }

  /** TrimEnd(trimChars): trims the back only. */
  function TrimEnd(self: SanitizerTypeBuilder<string>, trimChars: seq<char>): (r: SanitizerTypeBuilder<string>)
    ensures AppendsStep(self, r, x => Ok(Strings.TrimEnd(x, trimChars)))
  {
    TransformValue(self, x => Ok(Strings.TrimEnd(x, trimChars)))
  }

  /** Substring(startIndex, length = null): the one-argument overload when `length` is null. */
  function Substring(self: SanitizerTypeBuilder<string>, startIndex: int, length: Option<int>): (r: SanitizerTypeBuilder<string>)
    ensures length.None? ==> AppendsStep(self, r, x => Strings.SubstringFrom(x, startIndex))
    ensures length.Some? ==> AppendsStep(self, r, x => Strings.SubstringRange(x, startIndex, length.value))
  {
    TransformValue(self, x => if length.None? then Strings.SubstringFrom(x, startIndex)
                              else Strings.SubstringRange(x, startIndex, length.value))
  }

  /** Remove(startIndex, count = null): the one-argument overload when `count` is null. */
  function Remove(self: SanitizerTypeBuilder<string>, startIndex: int, count: Option<int>): (r: SanitizerTypeBuilder<string>)
    ensures count.None? ==> AppendsStep(self, r, x => Strings.RemoveFrom(x, startIndex))
    ensures count.Some? ==> AppendsStep(self, r, x => Strings.RemoveRange(x, startIndex, count.value))
  {
    TransformValue(self, x => if count.None? then Strings.RemoveFrom(x, startIndex)
                              else Strings.RemoveRange(x, startIndex, count.value))
  }

  /** PadLeft(totalWidth, paddingChar = null): a null padding character pads with spaces. */
  function PadLeft(self: SanitizerTypeBuilder<string>, totalWidth: int, paddingChar: Option<char>): (r: SanitizerTypeBuilder<string>)
    ensures paddingChar.None? ==> AppendsStep(self, r, x => Strings.PadLeft(x, totalWidth, ' '))
    ensures paddingChar.Some? ==> AppendsStep(self, r, x => Strings.PadLeft(x, totalWidth, paddingChar.value))
  {
    TransformValue(self, x => if paddingChar.None? then Strings.PadLeft(x, totalWidth, ' ')
                              else Strings.PadLeft(x, totalWidth, paddingChar.value))
  }

  /** PadRight(totalWidth, paddingChar = null): a null padding character pads with spaces. */
  function PadRight(self: SanitizerTypeBuilder<string>, totalWidth: int, paddingChar: Option<char>): (r: SanitizerTypeBuilder<string>)
    ensures paddingChar.None? ==> AppendsStep(self, r, x => Strings.PadRight(x, totalWidth, ' '))
    ensures paddingChar.Some? ==> AppendsStep(self, r, x => Strings.PadRight(x, totalWidth, paddingChar.value))
  {
    TransformValue(self, x => if paddingChar.None? then Strings.PadRight(x, totalWidth, ' ')
                              else Strings.PadRight(x, totalWidth, paddingChar.value))
  }

  /**
   * Configuring Trim twice in a row sanitizes exactly as configuring it once:
   * the second trim finds nothing left to remove.
   */
  lemma TrimTwiceIsTrimOnce(self: SanitizerTypeBuilder<string>, trimChars: seq<char>, x: string)
    requires self.properties == []
    ensures Run(Trim(Trim(self, trimChars), trimChars), x) == Run(Trim(self, trimChars), x)
  {
    var once := Trim(self, trimChars);
    AppendedStepRunsLast(self, once, y => Ok(Strings.Trim(y, trimChars)), x);
    AppendedStepRunsLast(once, Trim(once, trimChars), y => Ok(Strings.Trim(y, trimChars)), x);
    var o := Run(self, x);
    if o.error.None? {
      Strings.TrimIdempotent(o.value, trimChars);
    }
  }

  /**
   * A configured PadLeft followed by TrimStart of the same character leaves
   * the value as TrimStart alone would, whenever the width is valid.
   */
  lemma PadLeftThenTrimStart(self: SanitizerTypeBuilder<string>, totalWidth: int, c: char, x: string)
    requires self.properties == [] && totalWidth >= 0
    ensures Run(TrimStart(PadLeft(self, totalWidth, Some(c)), [c]), x)
              == Run(TrimStart(self, [c]), x)
  {
    var padded := PadLeft(self, totalWidth, Some(c));
    AppendedStepRunsLast(self, padded, y => Strings.PadLeft(y, totalWidth, c), x);
    AppendedStepRunsLast(padded, TrimStart(padded, [c]), y => Ok(Strings.TrimStart(y, [c])), x);
    AppendedStepRunsLast(self, TrimStart(self, [c]), y => Ok(Strings.TrimStart(y, [c])), x);
    var o := Run(self, x);
    if o.error.None? {
      Strings.TrimStartUndoesPadLeft(o.value, totalWidth, c);
    }
  }
}
