/**
 * The three JavaScript string operations the form logic relies on:
 * `String.prototype.trim`, `String.prototype.toLowerCase` and
 * `String.prototype.includes`.
 */
module JsString {

  /** ECMAScript WhiteSpace and LineTerminator code points: what `trim` strips. */
  predicate IsWhitespace(c: char) {
    || c == '\t' || c == '\n' || c == '\U{000B}' || c == '\U{000C}' || c == '\r'
    || c == ' ' || c == '\U{00A0}' || c == '\U{1680}'
    || ('\U{2000}' <= c <= '\U{200A}')
    || c == '\U{2028}' || c == '\U{2029}' || c == '\U{202F}' || c == '\U{205F}'
    || c == '\U{3000}' || c == '\U{FEFF}'
  }

  /** Every character of `s` is whitespace (vacuously true of ""). */
  predicate IsBlank(s: string) {
    forall i :: 0 <= i < |s| ==> IsWhitespace(s[i])
  }

  /** Drops leading whitespace: the result is the suffix of `s` after the whitespace run. */
  function TrimStart(s: string): (r: string)
    ensures |r| <= |s| && r == s[|s| - |r|..]
    ensures forall i :: 0 <= i < |s| - |r| ==> IsWhitespace(s[i])
    ensures r != [] ==> !IsWhitespace(r[0])
    decreases |s|
  {
    if s != [] && IsWhitespace(s[0]) then TrimStart(s[1..]) else s
  }

  /** Drops trailing whitespace: the result is the prefix of `s` before the whitespace run. */
  function TrimEnd(s: string): (r: string)
    ensures |r| <= |s| && r == s[..|r|]
    ensures forall i :: |r| <= i < |s| ==> IsWhitespace(s[i])
    ensures r != [] ==> !IsWhitespace(r[|r| - 1])
    decreases |s|
  {
    if s != [] && IsWhitespace(s[|s| - 1]) then TrimEnd(s[..|s| - 1]) else s
  }

  /** `s.trim()`: empty exactly when `s` consists of whitespace only. */
  function Trim(s: string): (r: string)
    ensures r == [] <==> IsBlank(s)
  {
    TrimEmptyIffBlank(s);
    TrimEnd(TrimStart(s))
  }

  /** The trimmed string is a contiguous slice of `s`. */
  lemma TrimIsSlice(s: string)
    ensures exists a, b :: 0 <= a <= b <= |s| && Trim(s) == s[a..b]
  {
    PrefixOfSuffixIsSlice(s, TrimStart(s), TrimEnd(TrimStart(s)));
  }

  /** The trimmed string neither starts nor ends with whitespace. */
  lemma TrimEnds(s: string)
    ensures Trim(s) != [] ==> !IsWhitespace(Trim(s)[0]) && !IsWhitespace(Trim(s)[|Trim(s)| - 1])
  {
    var front := TrimStart(s);
    var r := TrimEnd(front);
    if r != [] {
      assert r[0] == front[0];
    }
  }

  /** A prefix of a suffix of `s` is a slice of `s`. */
  lemma PrefixOfSuffixIsSlice(s: string, front: string, r: string)
    requires |front| <= |s| && front == s[|s| - |front|..]
    requires |r| <= |front| && r == front[..|r|]
    ensures exists a, b :: 0 <= a <= b <= |s| && r == s[a..b]
  {
    var a := |s| - |front|;
    assert r == s[a..a + |r|];
  }

  /** Trimming leaves nothing exactly when there was nothing but whitespace. */
  lemma TrimEmptyIffBlank(s: string)
    ensures TrimEnd(TrimStart(s)) == [] <==> IsBlank(s)
  {
    var front := TrimStart(s);
    var skipped := |s| - |front|;
    assert front != [] ==> front[0] == s[skipped];
  }

  /** ASCII upper-case letters map to lower case; every other character maps to itself. */
  function LowerChar(c: char): char {
    if 'A' <= c <= 'Z' then (c as int + ('a' as int - 'A' as int)) as char else c
  }

  /** `s.toLowerCase()`, character by character. */
  function Lower(s: string): (r: string)
    ensures |r| == |s|
  {
    seq(|s|, i requires 0 <= i < |s| => LowerChar(s[i]))
  }

  /** `sub` occurs in `s` starting at position `k`. */
  predicate MatchesAt(s: string, sub: string, k: int) {
    0 <= k <= |s| - |sub| && s[k..k + |sub|] == sub
  }

  /** `s.includes(sub)`: `sub` occurs in `s` at some position. */
  predicate Includes(s: string, sub: string) {
    exists k | 0 <= k <= |s| - |sub| :: MatchesAt(s, sub, k)
  }

  /** Every string includes the empty string (so an empty search matches everything). */
  lemma IncludesEmpty(s: string)
    ensures Includes(s, "")
  {
    assert MatchesAt(s, "", 0);
  }

  /** A string that lacks some character of `sub` cannot include it. */
  lemma CharAbsent(s: string, sub: string, j: nat)
    requires j < |sub| && sub[j] !in s
    ensures !Includes(s, sub)
  {
    forall k | 0 <= k <= |s| - |sub| ensures !MatchesAt(s, sub, k) {
      assert s[k..k + |sub|][j] == s[k + j];
    }
  }

  /** Splitting the haystack: when `a` lacks the first character of `sub`, any match
      in `a + b` lies wholly inside `b`. */
  lemma IncludesAfterPrefix(a: string, b: string, sub: string)
    requires sub != [] && sub[0] !in a
    ensures Includes(a + b, sub) ==> Includes(b, sub)
  {
    forall k | MatchesAt(a + b, sub, k) ensures MatchesAt(b, sub, k - |a|) {
      assert (a + b)[k..k + |sub|][0] == (a + b)[k];
      if k >= |a| {
        assert b[k - |a|..k - |a| + |sub|] == (a + b)[k..k + |sub|];
      }
    }
  }

  /** `c` is not an upper-case ASCII letter, and neither `c` nor its upper-case form
      occurs in `s`. */
  predicate LowerLacks(s: string, c: char) {
    && !('A' <= c <= 'Z') && c !in s
    && ('a' <= c <= 'z' ==> (c as int - ('a' as int - 'A' as int)) as char !in s)
  }

  /** A character that is not an upper-case ASCII letter is absent from `Lower(s)`
      when it and its upper-case form are absent from `s`. */
  lemma LowerAbsent(s: string, c: char)
    requires LowerLacks(s, c)
    ensures c !in Lower(s)
  {
    forall i | 0 <= i < |s| ensures Lower(s)[i] != c {
      assert Lower(s)[i] == LowerChar(s[i]);
    }
  }
}
