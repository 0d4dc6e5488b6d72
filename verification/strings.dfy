/**
 * The System.String operations the string extensions call: trimming,
 * substrings, removal and padding, on strings as sequences of Unicode
 * scalar values (a .NET string counts UTF-16 code units instead, so lengths
 * and indices differ for text outside the Basic Multilingual Plane). Each
 * operation that .NET guards with an ArgumentOutOfRangeException
 * returns a Result naming the offending parameter.
 */
module Strings {
  import opened Outcomes

  /** char.IsWhiteSpace: the Unicode separators (Zs, Zl, Zp) and the controls U+0009..U+000D and U+0085. */
  predicate IsWhiteSpace(c: char) {
    c == ' ' || ('\t' <= c <= '\r') || c == '\U{0085}' || c == '\U{00A0}' || c == '\U{1680}'
    || ('\U{2000}' <= c <= '\U{200A}') || c == '\U{2028}' || c == '\U{2029}'
    || c == '\U{202F}' || c == '\U{205F}' || c == '\U{3000}'
  }

  /** What a trim removes: the characters of `trimChars`, or white space when `trimChars` is null or empty. */
  predicate Trimmable(c: char, trimChars: seq<char>) {
    if trimChars == [] then IsWhiteSpace(c) else c in trimChars
  }

  // ---------------------------------------------------------------- trimming

  /** The length of the run of trimmable characters in `x` starting at `from`. */
  function LeadingRun(x: string, from: nat, trimChars: seq<char>): (n: nat)
    requires from <= |x|
    decreases |x| - from
    ensures from + n <= |x|
    ensures forall i :: from <= i < from + n ==> Trimmable(x[i], trimChars)
    ensures from + n < |x| ==> !Trimmable(x[from + n], trimChars)
  {
    if from == |x| || !Trimmable(x[from], trimChars) then 0
    else 1 + LeadingRun(x, from + 1, trimChars)
  }

  /** The length of the run of trimmable characters in `x` ending just before `to`. */
  function TrailingRun(x: string, to: nat, trimChars: seq<char>): (n: nat)
    requires to <= |x|
    ensures n <= to
    ensures forall i :: to - n <= i < to ==> Trimmable(x[i], trimChars)
    ensures n < to ==> !Trimmable(x[to - n - 1], trimChars)
  {
    if to == 0 || !Trimmable(x[to - 1], trimChars) then 0
    else 1 + TrailingRun(x, to - 1, trimChars)
  }

  /** The length of the longest prefix of `x` made of trimmable characters. */
  function LeadingCount(x: string, trimChars: seq<char>): (n: nat)
    ensures n <= |x|
    ensures forall i :: 0 <= i < n ==> Trimmable(x[i], trimChars)
    ensures n < |x| ==> !Trimmable(x[n], trimChars)
  {
    LeadingRun(x, 0, trimChars)
  }

  /** The length of the longest suffix of `x` made of trimmable characters. */
  function TrailingCount(x: string, trimChars: seq<char>): (n: nat)
    ensures n <= |x|
    ensures forall i :: |x| - n <= i < |x| ==> Trimmable(x[i], trimChars)
    ensures n < |x| ==> !Trimmable(x[|x| - n - 1], trimChars)
  {
    TrailingRun(x, |x|, trimChars)
  }

  /**
   * String.TrimStart: the suffix of `x` left after dropping trimmable
   * characters at the front, and nothing else.
   */
  function TrimStart(x: string, trimChars: seq<char>): (r: string)
    ensures |r| <= |x| && r == x[|x| - |r|..]
    ensures forall i :: 0 <= i < |x| - |r| ==> Trimmable(x[i], trimChars)
    ensures r == [] || !Trimmable(r[0], trimChars)
  {
    x[LeadingCount(x, trimChars)..]
  }

  /**
   * String.TrimEnd: the prefix of `x` left after dropping trimmable
   * characters at the back, and nothing else.
   */
  function TrimEnd(x: string, trimChars: seq<char>): (r: string)
    ensures |r| <= |x| && r == x[..|r|]
    ensures forall i :: |r| <= i < |x| ==> Trimmable(x[i], trimChars)
    ensures r == [] || !Trimmable(r[|r| - 1], trimChars)
  {
    x[..|x| - TrailingCount(x, trimChars)]
  }

  /**
   * String.Trim: the contiguous slice of `x` that starts after its leading
   * run of trimmable characters, with only trimmable characters after it,
   * and neither starting nor ending with a trimmable character.
   */
  function Trim(x: string, trimChars: seq<char>): (r: string)
    ensures LeadingCount(x, trimChars) + |r| <= |x|
    ensures r == x[LeadingCount(x, trimChars)..LeadingCount(x, trimChars) + |r|]
    ensures forall i :: LeadingCount(x, trimChars) + |r| <= i < |x| ==> Trimmable(x[i], trimChars)
    ensures r == [] || (!Trimmable(r[0], trimChars) && !Trimmable(r[|r| - 1], trimChars))
  {
    var s := TrimStart(x, trimChars);
    var r := TrimEnd(s, trimChars);
    assert r == [] || r[0] == s[0];
    r
  }

  /** The leading run is determined by its two defining facts. */
  lemma LeadingCountUnique(x: string, trimChars: seq<char>, n: nat)
    requires n <= |x|
    requires forall i :: 0 <= i < n ==> Trimmable(x[i], trimChars)
    requires n < |x| ==> !Trimmable(x[n], trimChars)
    ensures LeadingCount(x, trimChars) == n
  {
  }

  /** The trailing run is determined by its two defining facts. */
  lemma TrailingCountUnique(x: string, trimChars: seq<char>, n: nat)
    requires n <= |x|
    requires forall i :: |x| - n <= i < |x| ==> Trimmable(x[i], trimChars)
    requires n < |x| ==> !Trimmable(x[|x| - n - 1], trimChars)
    ensures TrailingCount(x, trimChars) == n
  {
  }

  /** Any suffix meeting TrimStart's description is TrimStart's result. */
  lemma TrimStartUnique(x: string, trimChars: seq<char>, r: string)
    requires |r| <= |x| && r == x[|x| - |r|..]
    requires forall i :: 0 <= i < |x| - |r| ==> Trimmable(x[i], trimChars)
    requires r == [] || !Trimmable(r[0], trimChars)
    ensures TrimStart(x, trimChars) == r
  {
    if r != [] {
      assert x[|x| - |r|] == r[0];
    }
    LeadingCountUnique(x, trimChars, |x| - |r|);
  }

  /** Any prefix meeting TrimEnd's description is TrimEnd's result. */
  lemma TrimEndUnique(x: string, trimChars: seq<char>, r: string)
    requires |r| <= |x| && r == x[..|r|]
    requires forall i :: |r| <= i < |x| ==> Trimmable(x[i], trimChars)
    requires r == [] || !Trimmable(r[|r| - 1], trimChars)
    ensures TrimEnd(x, trimChars) == r
  {
    if r != [] {
      assert x[|r| - 1] == r[|r| - 1];
    }
    TrailingCountUnique(x, trimChars, |x| - |r|);
  }

  /** TrimStart returns its input unchanged exactly when nothing at the front can be trimmed. */
  lemma TrimStartUnchanged(x: string, trimChars: seq<char>)
    ensures TrimStart(x, trimChars) == x <==> (x == [] || !Trimmable(x[0], trimChars))
  {
    if x == [] || !Trimmable(x[0], trimChars) {
      TrimStartUnique(x, trimChars, x);
    }
  }

  /** TrimEnd returns its input unchanged exactly when nothing at the back can be trimmed. */
  lemma TrimEndUnchanged(x: string, trimChars: seq<char>)
    ensures TrimEnd(x, trimChars) == x <==> (x == [] || !Trimmable(x[|x| - 1], trimChars))
  {
    if x == [] || !Trimmable(x[|x| - 1], trimChars) {
      TrimEndUnique(x, trimChars, x);
    }
  }

  /** Trim returns its input unchanged exactly when neither end can be trimmed. */
  lemma TrimUnchanged(x: string, trimChars: seq<char>)
    ensures Trim(x, trimChars) == x <==>
              (x == [] || (!Trimmable(x[0], trimChars) && !Trimmable(x[|x| - 1], trimChars)))
  {
    if x == [] || (!Trimmable(x[0], trimChars) && !Trimmable(x[|x| - 1], trimChars)) {
      TrimStartUnchanged(x, trimChars);
      TrimEndUnchanged(x, trimChars);
    }
  }

  lemma TrimStartIdempotent(x: string, trimChars: seq<char>)
    ensures TrimStart(TrimStart(x, trimChars), trimChars) == TrimStart(x, trimChars)
  {
    TrimStartUnchanged(TrimStart(x, trimChars), trimChars);
  }

  lemma TrimEndIdempotent(x: string, trimChars: seq<char>)
    ensures TrimEnd(TrimEnd(x, trimChars), trimChars) == TrimEnd(x, trimChars)
  {
    TrimEndUnchanged(TrimEnd(x, trimChars), trimChars);
  }

  lemma TrimIdempotent(x: string, trimChars: seq<char>)
    ensures Trim(Trim(x, trimChars), trimChars) == Trim(x, trimChars)
  {
    TrimUnchanged(Trim(x, trimChars), trimChars);
  }

  /** Some character is not trimmable: the trailing run then ends after the leading run. */
  lemma RunsDisjoint(x: string, trimChars: seq<char>)
    requires LeadingCount(x, trimChars) < |x|
    ensures LeadingCount(x, trimChars) < |x| - TrailingCount(x, trimChars)
  {
    assert !Trimmable(x[LeadingCount(x, trimChars)], trimChars);
  }

  /** A slice of a slice, as one slice. */
  lemma SliceOfSlice(x: string, i: nat, j: nat)
    requires i <= j <= |x|
    ensures x[i..][..j - i] == x[i..j]
    ensures x[..j][i..] == x[i..j]
  {
  }

  /** Dropping part of the leading run leaves the trailing run as it was. */
  lemma TrailingCountOfSuffix(x: string, trimChars: seq<char>, l: nat)
    requires l <= |x| - TrailingCount(x, trimChars)
    ensures TrailingCount(x[l..], trimChars) == TrailingCount(x, trimChars)
    ensures TrimEnd(x[l..], trimChars) == x[l..|x| - TrailingCount(x, trimChars)]
  {
    var t := TrailingCount(x, trimChars);
    var s := x[l..];
    forall i | |s| - t <= i < |s|
      ensures Trimmable(s[i], trimChars)
    {
      assert s[i] == x[l + i];
    }
    if t < |s| {
      assert s[|s| - t - 1] == x[|x| - t - 1];
    }
    TrailingCountUnique(s, trimChars, t);
    SliceOfSlice(x, l, |x| - t);
  }

  /** Dropping part of the trailing run leaves the leading run as it was. */
  lemma LeadingCountOfPrefix(x: string, trimChars: seq<char>, k: nat)
    requires LeadingCount(x, trimChars) <= k <= |x|
    ensures LeadingCount(x[..k], trimChars) == LeadingCount(x, trimChars)
    ensures TrimStart(x[..k], trimChars) == x[LeadingCount(x, trimChars)..k]
  {
    var l := LeadingCount(x, trimChars);
    var e := x[..k];
    forall i | 0 <= i < l
      ensures Trimmable(e[i], trimChars)
    {
      assert e[i] == x[i];
    }
    if l < k {
      assert e[l] == x[l];
    }
    LeadingCountUnique(e, trimChars, l);
    SliceOfSlice(x, l, k);
  }

  /** Trimming the front, then the back, leaves the slice between the two runs. */
  lemma TrimEndOfTrimStart(x: string, trimChars: seq<char>)
    requires LeadingCount(x, trimChars) < |x| - TrailingCount(x, trimChars)
    ensures TrimEnd(TrimStart(x, trimChars), trimChars)
              == x[LeadingCount(x, trimChars)..|x| - TrailingCount(x, trimChars)]
  {
    var l := LeadingCount(x, trimChars);
    var t := TrailingCount(x, trimChars);
    assert TrimStart(x, trimChars) == x[l..];
    TrailingCountOfSuffix(x, trimChars, l);
  }

  /** Trimming the back, then the front, leaves the slice between the two runs. */
  lemma TrimStartOfTrimEnd(x: string, trimChars: seq<char>)
    requires LeadingCount(x, trimChars) < |x| - TrailingCount(x, trimChars)
    ensures TrimStart(TrimEnd(x, trimChars), trimChars)
              == x[LeadingCount(x, trimChars)..|x| - TrailingCount(x, trimChars)]
  {
    var l := LeadingCount(x, trimChars);
    var t := TrailingCount(x, trimChars);
    assert TrimEnd(x, trimChars) == x[..|x| - t];
    LeadingCountOfPrefix(x, trimChars, |x| - t);
  }

  /** Trimming the front first or the back first gives the same slice. */
  lemma TrimEitherOrder(x: string, trimChars: seq<char>)
    ensures Trim(x, trimChars) == TrimStart(TrimEnd(x, trimChars), trimChars)
  {
    if LeadingCount(x, trimChars) == |x| {
      TrailingCountUnique(x, trimChars, |x|);
    } else {
      RunsDisjoint(x, trimChars);
      TrimEndOfTrimStart(x, trimChars);
      TrimStartOfTrimEnd(x, trimChars);
    }
  }

  // ------------------------------------------------------ substrings, removal

  /** String.Substring(startIndex): the suffix of `x` from `startIndex`, empty when it equals the length. */
  function SubstringFrom(x: string, startIndex: int): (r: Result<string>)
    ensures r.Ok? <==> 0 <= startIndex <= |x|
    ensures r.Err? ==> r.error == ArgumentOutOfRange("startIndex")
    ensures r.Ok? ==> |r.value| == |x| - startIndex
    ensures r.Ok? ==> forall i :: 0 <= i < |r.value| ==> r.value[i] == x[startIndex + i]
  {
    if startIndex < 0 || startIndex > |x| then Err(ArgumentOutOfRange("startIndex"))
    else Ok(x[startIndex..])
  }

  /**
   * String.Substring(startIndex, length): the `length` characters of `x`
   * beginning at `startIndex`. A start outside the string is blamed on
   * `startIndex`, a range running past the end on `length`.
   */
  function SubstringRange(x: string, startIndex: int, length: int): (r: Result<string>)
    ensures r.Ok? <==> 0 <= startIndex && 0 <= length && startIndex + length <= |x|
    ensures (startIndex < 0 || startIndex > |x|) ==> r == Err(ArgumentOutOfRange("startIndex"))
    ensures 0 <= startIndex <= |x| && r.Err? ==> r == Err(ArgumentOutOfRange("length"))
    ensures r.Ok? ==> |r.value| == length
    ensures r.Ok? ==> forall i :: 0 <= i < length ==> r.value[i] == x[startIndex + i]
  {
    if startIndex < 0 || startIndex > |x| then Err(ArgumentOutOfRange("startIndex"))
    else if length < 0 || startIndex > |x| - length then Err(ArgumentOutOfRange("length"))
    else Ok(x[startIndex..startIndex + length])
  }

  /** String.Remove(startIndex): `x` with everything from `startIndex` on deleted. */
  function RemoveFrom(x: string, startIndex: int): (r: Result<string>)
    ensures r.Ok? <==> 0 <= startIndex <= |x|
    ensures r.Err? ==> r.error == ArgumentOutOfRange("startIndex")
    ensures r.Ok? ==> r.value == x[..startIndex]
  {
    if startIndex < 0 || startIndex > |x| then Err(ArgumentOutOfRange("startIndex"))
    else Ok(x[..startIndex])
  }

  /** String.Remove(startIndex, count): `x` with the `count` characters at `startIndex` deleted. */
  function RemoveRange(x: string, startIndex: int, count: int): (r: Result<string>)
    ensures r.Ok? <==> 0 <= startIndex && 0 <= count && startIndex + count <= |x|
    ensures startIndex < 0 ==> r == Err(ArgumentOutOfRange("startIndex"))
    ensures 0 <= startIndex && r.Err? ==> r == Err(ArgumentOutOfRange("count"))
    ensures r.Ok? ==> |r.value| == |x| - count
    ensures r.Ok? ==> r.value[..startIndex] == x[..startIndex]
    ensures r.Ok? ==> r.value[startIndex..] == x[startIndex + count..]
  {
    if startIndex < 0 then Err(ArgumentOutOfRange("startIndex"))
    else if count < 0 || count > |x| - startIndex then Err(ArgumentOutOfRange("count"))
    else Ok(x[..startIndex] + x[startIndex + count..])
  }

  /** What Remove(start) keeps and what Substring(start) returns put `x` back together. */
  lemma RemoveFromThenSubstringRestores(x: string, startIndex: int)
    requires 0 <= startIndex <= |x|
    ensures RemoveFrom(x, startIndex).value + SubstringFrom(x, startIndex).value == x
  {
    assert SubstringFrom(x, startIndex).value == x[startIndex..];
  }

  /** Remove(start) keeps the same prefix as Substring(0, start), and accepts the same starts. */
  lemma RemoveFromIsLeadingSubstring(x: string, startIndex: int)
    ensures RemoveFrom(x, startIndex).Ok? <==> SubstringRange(x, 0, startIndex).Ok?
    ensures RemoveFrom(x, startIndex).Ok? ==>
              RemoveFrom(x, startIndex).value == SubstringRange(x, 0, startIndex).value
  {
    if 0 <= startIndex <= |x| {
      assert SubstringRange(x, 0, startIndex).value == x[..startIndex];
    }
  }

  /** Remove(start, count) keeps exactly the characters Substring does not select. */
  lemma RemoveRangeComplementsSubstring(x: string, startIndex: int, count: int)
    requires 0 <= startIndex && 0 <= count && startIndex + count <= |x|
    ensures RemoveFrom(x, startIndex).value + SubstringRange(x, startIndex, count).value
              + SubstringFrom(x, startIndex + count).value == x
    ensures RemoveRange(x, startIndex, count).value
              == RemoveFrom(x, startIndex).value + SubstringFrom(x, startIndex + count).value
  {
    assert SubstringRange(x, startIndex, count).value == x[startIndex..startIndex + count];
    assert SubstringFrom(x, startIndex + count).value == x[startIndex + count..];
    assert x == x[..startIndex] + x[startIndex..startIndex + count] + x[startIndex + count..];
  }

  /** Appending `value` and then removing from the old length gives the old string back. */
  lemma AppendThenRemoveRestores(x: string, value: string)
    ensures RemoveFrom(x + value, |x|) == Ok(x)
  {
    assert (x + value)[..|x|] == x;
  }

  // ----------------------------------------------------------------- padding

  /** `n` copies of `c`. */
  function Repeat(c: char, n: nat): (r: string)
    ensures |r| == n
    ensures forall i :: 0 <= i < n ==> r[i] == c
  {
    seq(n, _ => c)
  }

  /**
   * String.PadLeft(totalWidth, paddingChar): `x` right-aligned in a field of
   * `totalWidth`, or `x` itself when it is already that wide.
   */
  function PadLeft(x: string, totalWidth: int, paddingChar: char): (r: Result<string>)
    ensures r.Err? <==> totalWidth < 0
    ensures r.Err? ==> r.error == ArgumentOutOfRange("totalWidth")
    ensures r.Ok? && totalWidth <= |x| ==> r.value == x
    ensures r.Ok? && totalWidth > |x| ==>
              |r.value| == totalWidth && r.value[totalWidth - |x|..] == x
              && forall i :: 0 <= i < totalWidth - |x| ==> r.value[i] == paddingChar
  {
    if totalWidth < 0 then Err(ArgumentOutOfRange("totalWidth"))
    else if totalWidth <= |x| then Ok(x)
    else Ok(Repeat(paddingChar, totalWidth - |x|) + x)
  }

  /**
   * String.PadRight(totalWidth, paddingChar): `x` left-aligned in a field of
   * `totalWidth`, or `x` itself when it is already that wide.
   */
  function PadRight(x: string, totalWidth: int, paddingChar: char): (r: Result<string>)
    ensures r.Err? <==> totalWidth < 0
    ensures r.Err? ==> r.error == ArgumentOutOfRange("totalWidth")
    ensures r.Ok? && totalWidth <= |x| ==> r.value == x
    ensures r.Ok? && totalWidth > |x| ==>
              |r.value| == totalWidth && r.value[..|x|] == x
              && forall i :: |x| <= i < totalWidth ==> r.value[i] == paddingChar
  {
    if totalWidth < 0 then Err(ArgumentOutOfRange("totalWidth"))
    else if totalWidth <= |x| then Ok(x)
    else Ok(x + Repeat(paddingChar, totalWidth - |x|))
  }

  /** A padded string is at least as wide as asked for, and never narrower than `x`. */
  lemma PaddedWidth(x: string, totalWidth: int, paddingChar: char)
    requires totalWidth >= 0
    ensures |PadLeft(x, totalWidth, paddingChar).value| == if totalWidth > |x| then totalWidth else |x|
    ensures |PadRight(x, totalWidth, paddingChar).value| == if totalWidth > |x| then totalWidth else |x|
  {
  }

  /** Trimming the padding character from the front undoes PadLeft. */
  lemma TrimStartUndoesPadLeft(x: string, totalWidth: int, paddingChar: char)
    requires totalWidth >= 0
    ensures TrimStart(PadLeft(x, totalWidth, paddingChar).value, [paddingChar])
              == TrimStart(x, [paddingChar])
  {
    if totalWidth > |x| {
      var p := PadLeft(x, totalWidth, paddingChar).value;
      var k := totalWidth - |x|;
      var n := LeadingCount(x, [paddingChar]);
      assert forall i :: k <= i < |p| ==> p[i] == x[i - k];
      LeadingCountUnique(p, [paddingChar], k + n);
      assert p[k + n..] == x[n..];
    }
  }

  /** Trimming the padding character from the back undoes PadRight. */
  lemma TrimEndUndoesPadRight(x: string, totalWidth: int, paddingChar: char)
    requires totalWidth >= 0
    ensures TrimEnd(PadRight(x, totalWidth, paddingChar).value, [paddingChar])
              == TrimEnd(x, [paddingChar])
  {
    if totalWidth > |x| {
      var p := PadRight(x, totalWidth, paddingChar).value;
      var k := totalWidth - |x|;
      var n := TrailingCount(x, [paddingChar]);
      assert TrailingCount(p, [paddingChar]) == k + n by {
        forall i | |p| - (k + n) <= i < |p|
          ensures Trimmable(p[i], [paddingChar])
        {
          if i < |x| {
            assert p[i] == x[i];
          } else {
            assert p[i] == paddingChar;
          }
        }
        if k + n < |p| {
          assert p[|p| - (k + n) - 1] == x[|x| - n - 1];
        }
        TrailingCountUnique(p, [paddingChar], k + n);
      }
      assert p[..|p| - (k + n)] == x[..|x| - n];
    }
  }
}
