/**
 * The pieces of the Kotlin standard library's string handling that the client relies on:
 * `Char.isWhitespace`, `trim`, `isBlank`, `startsWith`, `endsWith`, `removeSuffix`,
 * `indexOf` and `substringAfter`. Strings are sequences of Unicode scalar values (Dafny's `char`);
 * Kotlin's are UTF-16 code units, so a character above U+FFFF is one element here and two there.
 */
module Text {
  import opened Wrappers

  /**
   * Kotlin's `Char.isWhitespace` on the JVM: `Character.isWhitespace` or `Character.isSpaceChar`,
   * i.e. the control characters U+0009..U+000D and U+001C..U+001F, and every space, line or
   * paragraph separator (including the non-breaking ones).
   */
  predicate IsWhitespace(c: char) {
    var n := c as int;
    (0x09 <= n <= 0x0D) || (0x1C <= n <= 0x20) || n == 0xA0 || n == 0x1680
    || (0x2000 <= n <= 0x200A) || n == 0x2028 || n == 0x2029 || n == 0x202F
    || n == 0x205F || n == 0x3000
  }

  /** Kotlin's `isBlank`: empty, or whitespace only. */
  predicate IsBlank(s: string) {
    forall k :: 0 <= k < |s| ==> IsWhitespace(s[k])
  }

  predicate StartsWith(s: string, prefix: string) {
    |prefix| <= |s| && s[..|prefix|] == prefix
  }

  predicate EndsWith(s: string, suffix: string) {
    |suffix| <= |s| && s[|s| - |suffix|..] == suffix
  }

  /** Where trimming starts: the first index at or after `from` that is not whitespace (or |s|). */
  function SkipLeading(s: string, from: nat): (start: nat)
    requires from <= |s|
    ensures from <= start <= |s|
    ensures forall k :: from <= k < start ==> IsWhitespace(s[k])
    ensures start < |s| ==> !IsWhitespace(s[start])
    decreases |s| - from
  {
    if from < |s| && IsWhitespace(s[from]) then SkipLeading(s, from + 1) else from
  }

  /** Where trimming ends: moving down from `end`, the first end not preceded by whitespace (or `start`). */
  function SkipTrailing(s: string, start: nat, end: nat): (stop: nat)
    requires start <= end <= |s|
    ensures start <= stop <= end
    ensures forall k :: stop <= k < end ==> IsWhitespace(s[k])
    ensures start < stop ==> !IsWhitespace(s[stop - 1])
    decreases end
  {
    if start < end && IsWhitespace(s[end - 1]) then SkipTrailing(s, start, end - 1) else end
  }

  /**
   * Kotlin's `trim`: the part of `s` left once all leading and trailing whitespace is removed;
   * it neither starts nor ends with whitespace.
   */
  function Trim(s: string): (r: string)
    ensures |r| <= |s|
    ensures r != [] ==> !IsWhitespace(r[0]) && !IsWhitespace(r[|r| - 1])
  {
    var start := SkipLeading(s, 0);
    var stop := SkipTrailing(s, start, |s|);
    s[start..stop]
  }

  /**
   * `Trim` cuts off only whitespace: `s` is the trimmed text with a blank prefix and a blank
   * suffix around it. Together with the contract of `Trim` this determines the result uniquely.
   */
  lemma TrimCutsOnlyWhitespace(s: string)
    ensures exists i :: 0 <= i <= |s| - |Trim(s)| && s[i..i + |Trim(s)|] == Trim(s)
                        && IsBlank(s[..i]) && IsBlank(s[i + |Trim(s)|..])
  {
    var start := SkipLeading(s, 0);
    var stop := SkipTrailing(s, start, |s|);
    assert s[start..start + |Trim(s)|] == Trim(s);
    assert forall k :: 0 <= k < start ==> s[..start][k] == s[k];
    assert forall k :: 0 <= k < |s| - stop ==> s[stop..][k] == s[stop + k];
  }

  /** Kotlin's `removeSuffix`: strips one occurrence of `suffix` from the end, if it is there. */
  function RemoveSuffix(s: string, suffix: string): (r: string)
    ensures EndsWith(s, suffix) ==> r + suffix == s
    ensures !EndsWith(s, suffix) ==> r == s
  {
    if EndsWith(s, suffix) then s[..|s| - |suffix|] else s
  }

  predicate OccursAt(s: string, pattern: string, i: int) {
    0 <= i && i + |pattern| <= |s| && s[i..i + |pattern|] == pattern
  }

  /** The first position at or after `from` where `pattern` occurs in `s`, if any. */
  function IndexOfFrom(s: string, pattern: string, from: nat): (r: Option<nat>)
    requires from <= |s|
    ensures r.Some? ==> from <= r.value && OccursAt(s, pattern, r.value)
    ensures r.Some? ==> forall j :: from <= j < r.value ==> !OccursAt(s, pattern, j)
    ensures r.None? ==> forall j :: from <= j ==> !OccursAt(s, pattern, j)
    decreases |s| - from
  {
    if OccursAt(s, pattern, from) then Some(from)
    else if from == |s| then None
    else IndexOfFrom(s, pattern, from + 1)
  }

  /** Kotlin's `indexOf(String)`: the first occurrence of `pattern` in `s`, if any. */
  function IndexOf(s: string, pattern: string): (r: Option<nat>)
    ensures r.Some? ==> OccursAt(s, pattern, r.value) && forall j :: 0 <= j < r.value ==> !OccursAt(s, pattern, j)
    ensures r.None? ==> forall j :: !OccursAt(s, pattern, j)
  {
    IndexOfFrom(s, pattern, 0)
  }

  /**
   * Kotlin's `substringAfter(delimiter)`: what follows the first occurrence of `delimiter`,
   * or the whole of `s` when `delimiter` does not occur (the default `missingDelimiterValue`).
   */
  function SubstringAfter(s: string, delimiter: string): (r: string)
    ensures IndexOf(s, delimiter).None? ==> r == s
    ensures IndexOf(s, delimiter).Some? ==> r == s[IndexOf(s, delimiter).value + |delimiter|..]
  {
    match IndexOf(s, delimiter)
    case None => s
    case Some(i) => s[i + |delimiter|..]
  }

  /** Kotlin's `isBlank` agrees with trimming: a string is blank exactly when it trims to nothing. */
  lemma BlankIffTrimsToEmpty(s: string)
    ensures IsBlank(s) <==> Trim(s) == []
  {
    var start := SkipLeading(s, 0);
    var stop := SkipTrailing(s, start, |s|);
    if start < |s| {
      assert start < stop;
      assert Trim(s)[0] == s[start];
    }
  }

  /** A text that starts and ends with something other than whitespace is left alone by `Trim`. */
  lemma TrimKeepsTrimmed(s: string)
    requires s != [] && !IsWhitespace(s[0]) && !IsWhitespace(s[|s| - 1])
    ensures Trim(s) == s
  {
    assert SkipLeading(s, 0) == 0;
    assert SkipTrailing(s, 0, |s|) == |s|;
  }
}
