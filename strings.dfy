/**
 * The JavaScript string operations the build planner relies on:
 * `String.prototype.trim`, ASCII case-insensitive suffix tests (`/\.json$/i`,
 * `/\.js$/i`), `replace(/\//g, '-')` and `substr(lastIndexOf('/') + 1)`.
 */
module Strings {

  /** The characters ECMAScript's `trim` removes: WhiteSpace and LineTerminator. */
  predicate IsWhitespace(c: char) {
    || c == ' ' || c == '\t' || c == '\n' || c == '\r'
    || c == '\U{000B}' || c == '\U{000C}' || c == '\U{00A0}' || c == '\U{FEFF}'
    || c == '\U{1680}' || ('\U{2000}' <= c <= '\U{200A}')
    || c == '\U{2028}' || c == '\U{2029}' || c == '\U{202F}' || c == '\U{205F}'
    || c == '\U{3000}'
  }

  predicate AllWhitespace(s: string) {
    forall i :: 0 <= i < |s| ==> IsWhitespace(s[i])
  }

  function TrimStart(s: string): (r: string)
    ensures |r| <= |s| && r == s[|s| - |r|..]
    ensures AllWhitespace(s[..|s| - |r|])
    ensures r != "" ==> !IsWhitespace(r[0])
  {
    if s != "" && IsWhitespace(s[0]) then
      var r := TrimStart(s[1..]);
      assert forall i :: 1 <= i < |s| - |r| ==> s[i] == s[1..][..|s| - 1 - |r|][i - 1];
      r
    else s
  }

  function TrimEnd(s: string): (r: string)
    ensures |r| <= |s| && r == s[..|r|]
    ensures AllWhitespace(s[|r|..])
    ensures r != "" ==> !IsWhitespace(r[|r| - 1])
  {
    if s != "" && IsWhitespace(s[|s| - 1]) then TrimEnd(s[..|s| - 1]) else s
  }

  /** `s.trim()`: `s` without its leading and trailing whitespace. */
  function Trim(s: string): (r: string)
    ensures |r| <= |s|
    ensures r != "" ==> !IsWhitespace(r[0]) && !IsWhitespace(r[|r| - 1])
    ensures r == "" <==> AllWhitespace(s)
  {
    TrimKeepsNoWhitespaceEnds(s);
    TrimEmptyOnlyIfWhitespace(s);
    TrimEmptyIfWhitespace(s);
    TrimEnd(TrimStart(s))
  }

  lemma TrimKeepsNoWhitespaceEnds(s: string)
    ensures TrimEnd(TrimStart(s)) != "" ==> !IsWhitespace(TrimEnd(TrimStart(s))[0])
  {
    var t := TrimStart(s);
    var r := TrimEnd(t);
    if r != "" {
      assert r[0] == t[0];
    }
  }

  lemma TrimEmptyOnlyIfWhitespace(s: string)
    ensures TrimEnd(TrimStart(s)) == "" ==> AllWhitespace(s)
  {
    var t := TrimStart(s);
    var k := |s| - |t|;
    if TrimEnd(t) == "" {
      assert AllWhitespace(t) by {
        assert t[0..] == t;
      }
      AllWhitespaceSplit(s, k);
    }
  }

  /** A string is all whitespace when both parts either side of `k` are. */
  lemma AllWhitespaceSplit(s: string, k: nat)
    requires k <= |s| && AllWhitespace(s[..k]) && AllWhitespace(s[k..])
    ensures AllWhitespace(s)
  {
    forall i | 0 <= i < |s|
      ensures IsWhitespace(s[i])
    {
      if i < k {
        assert s[i] == s[..k][i];
      } else {
        assert s[i] == s[k..][i - k];
      }
    }
  }

  lemma TrimEmptyIfWhitespace(s: string)
    ensures AllWhitespace(s) ==> TrimStart(s) == "" && TrimEnd(TrimStart(s)) == ""
  {
  }

  /** Whether `s.trim()` is the empty string (a blank filter name). */
  predicate IsBlank(s: string) {
    Trim(s) == ""
  }

  function LowerAscii(c: char): char {
    if 'A' <= c <= 'Z' then (c as int + 32) as char else c
  }

  predicate EqualsIgnoreCase(a: string, b: string) {
    |a| == |b| && forall i :: 0 <= i < |a| ==> LowerAscii(a[i]) == LowerAscii(b[i])
  }

  /** `new RegExp(escape(suffix) + '$', 'i').test(s)` for an ASCII suffix. */
  predicate EndsWithIgnoreCase(s: string, suffix: string) {
    |suffix| <= |s| && EqualsIgnoreCase(s[|s| - |suffix|..], suffix)
  }

  /** `s.replace(new RegExp(escape(suffix) + '$', 'i'), '')`. */
  function StripSuffixIgnoreCase(s: string, suffix: string): (r: string)
    ensures EndsWithIgnoreCase(s, suffix) ==> |r| == |s| - |suffix| && r == s[..|r|]
    ensures !EndsWithIgnoreCase(s, suffix) ==> r == s
  {
    if EndsWithIgnoreCase(s, suffix) then s[..|s| - |suffix|] else s
  }

  /** `s.replace(/<from>/g, to)` for a single character `from`. */
  function ReplaceChar(s: string, from: char, to: char): (r: string)
    ensures |r| == |s|
    ensures forall i :: 0 <= i < |s| ==> r[i] == (if s[i] == from then to else s[i])
  {
    if s == "" then "" else ReplaceChar(s[..|s| - 1], from, to) + [if s[|s| - 1] == from then to else s[|s| - 1]]
  }

  /** `s.substr(s.lastIndexOf(c) + 1)`: the part of `s` after its last `c`, or all of `s`. */
  function AfterLast(s: string, c: char): (r: string)
    ensures |r| <= |s| && r == s[|s| - |r|..]
    ensures c !in r
    ensures |r| < |s| ==> s[|s| - |r| - 1] == c
  {
    if s == "" then ""
    else if s[|s| - 1] == c then ""
    else AfterLast(s[..|s| - 1], c) + [s[|s| - 1]]
  }
}
