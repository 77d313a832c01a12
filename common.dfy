/** Shared value types and the small string library the app relies on
    (Foundation's trimming, prefix and substring tests, and lower-casing). */
module Common {

  datatype Option<+T> = None | Some(value: T) {
    /** Swift's `??`: the wrapped value, or the fallback when nil. */
    function OrElse(fallback: T): T {
      match this
      case Some(v) => v
      case None => fallback
    }
  }

  datatype Result<+R, +E> = Success(value: R) | Failure(error: E)

  /** Swift `Optional` chaining `a ?? b` where both sides are optional: the first non-nil. */
  function FirstSome<T>(a: Option<T>, b: Option<T>): (r: Option<T>)
    ensures a.Some? ==> r == a
    ensures a.None? ==> r == b
  {
    if a.Some? then a else b
  }

  // ---------------------------------------------------------------------------
  // Prefixes and substrings

  predicate StartsWith(s: string, prefix: string) {
    |prefix| <= |s| && s[..|prefix|] == prefix
  }

  /** `t` occurs in `s` starting at index `i`. */
  predicate OccursAt(s: string, t: string, i: int) {
    0 <= i <= |s| - |t| && s[i..i + |t|] == t
  }

  /** `s.contains(t)`: `t` occurs in `s` at some position. */
  predicate Contains(s: string, t: string) {
    exists i :: 0 <= i <= |s| - |t| && OccursAt(s, t, i)
  }

  // ---------------------------------------------------------------------------
  // Whitespace and trimming

  /** The characters of Foundation's `CharacterSet.whitespacesAndNewlines`
      (the Unicode White_Space property). */
  predicate IsWhitespace(c: char) {
    ('\U{0009}' <= c <= '\U{000D}') || c == ' ' || c == '\U{0085}' || c == '\U{00A0}'
    || c == '\U{1680}' || ('\U{2000}' <= c <= '\U{200A}') || c == '\U{2028}' || c == '\U{2029}'
    || c == '\U{202F}' || c == '\U{205F}' || c == '\U{3000}'
  }

  predicate AllWhitespace(s: string) {
    forall i :: 0 <= i < |s| ==> IsWhitespace(s[i])
  }

  function TrimStart(s: string): (r: string)
    ensures |r| <= |s| && r == s[|s| - |r|..]
    ensures AllWhitespace(s[..|s| - |r|])
    ensures r == [] || !IsWhitespace(r[0])
  {
    if |s| > 0 && IsWhitespace(s[0]) then
      var r := TrimStart(s[1..]);
      assert s[..|s| - |r|] == [s[0]] + s[1..][..|s| - 1 - |r|];
      r
    else s
  }

  function TrimEnd(s: string): (r: string)
    ensures |r| <= |s| && r == s[..|r|]
    ensures AllWhitespace(s[|r|..])
    ensures r == [] || !IsWhitespace(r[|r| - 1])
  {
    if |s| > 0 && IsWhitespace(s[|s| - 1]) then
      var r := TrimEnd(s[..|s| - 1]);
      assert s[|r|..] == s[..|s| - 1][|r|..] + [s[|s| - 1]];
      r
    else s
  }

  /** `s.trimmingCharacters(in: .whitespacesAndNewlines)`. */
  function Trim(s: string): string {
    TrimEnd(TrimStart(s))
  }

  /** The trimmed text neither starts nor ends with whitespace. */
  lemma TrimBoundaries(s: string)
    ensures Trim(s) == [] || (!IsWhitespace(Trim(s)[0]) && !IsWhitespace(Trim(s)[|Trim(s)| - 1]))
  {
    var a := TrimStart(s);
    var r := TrimEnd(a);
    if r != [] {
      assert r[0] == a[0];
    }
  }

  /** Trimming removes whitespace at both ends only: the result is the slice
      of the input that starts after the leading whitespace, and the parts
      removed before and after it are whitespace. */
  lemma TrimIsCore(s: string)
    ensures var lo := |s| - |TrimStart(s)|;
            lo + |Trim(s)| <= |s| && Trim(s) == s[lo..lo + |Trim(s)|]
            && AllWhitespace(s[..lo]) && AllWhitespace(s[lo + |Trim(s)|..])
  {
    TrimTail(s);
  }

  /** What trimming drops at the end is whitespace. */
  lemma TrimTail(s: string)
    ensures var lo := |s| - |TrimStart(s)|;
            lo + |Trim(s)| <= |s| && AllWhitespace(s[lo + |Trim(s)|..])
  {
    PrefixOfSuffix(s, TrimStart(s), Trim(s));
  }

  /** A prefix `r` of a suffix `a` of `s` is the slice of `s` that starts
      where `a` does, and what `a` has after `r` is the rest of `s`. */
  lemma PrefixOfSuffix(s: string, a: string, r: string)
    requires |a| <= |s| && a == s[|s| - |a|..]
    requires |r| <= |a| && r == a[..|r|]
    ensures var lo := |s| - |a|;
            lo + |r| <= |s| && r == s[lo..lo + |r|] && a[|r|..] == s[lo + |r|..]
  {
  }

  /** The trimmed text is empty exactly when the text is whitespace only. */
  lemma TrimEmptyIff(s: string)
    ensures Trim(s) == [] <==> AllWhitespace(s)
  {
    var a := TrimStart(s);
    if Trim(s) == [] {
      assert a[0..] == a;
      assert a == [];
      assert s[..|s|] == s;
    }
  }

  /** Trimming an already trimmed string changes nothing. */
  lemma TrimIdempotent(s: string)
    ensures Trim(Trim(s)) == Trim(s)
  {
    var r := Trim(s);
    TrimBoundaries(s);
    assert TrimStart(r) == r;
    assert TrimEnd(r) == r;
  }

  // ---------------------------------------------------------------------------
  // Case mapping

  /** Lower-cases the ASCII letters A to Z and leaves every other character. */
  function LowerChar(c: char): (r: char)
    ensures 'A' <= c <= 'Z' ==> r as int == c as int + 32
    ensures !('A' <= c <= 'Z') ==> r == c
  {
    if 'A' <= c <= 'Z' then (c as int + 32) as char else c
  }

  /** `s.lowercased()` restricted to ASCII letters. */
  function Lower(s: string): (r: string)
    ensures |r| == |s|
    ensures forall i :: 0 <= i < |s| ==> r[i] == LowerChar(s[i])
  {
    if s == [] then [] else [LowerChar(s[0])] + Lower(s[1..])
  }

  /** A string without upper-case ASCII letters is its own lower case. */
  lemma LowerOfLowercase(s: string)
    requires forall i :: 0 <= i < |s| ==> !('A' <= s[i] <= 'Z')
    ensures Lower(s) == s
  {
  }

  /** Lower-casing twice is lower-casing once. */
  lemma LowerIdempotent(s: string)
    ensures Lower(Lower(s)) == Lower(s)
  {
  }
}
