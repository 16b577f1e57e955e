/**
 * The few JavaScript string operations the client's guards and filters use:
 * `trim()` (only ever tested for emptiness), `toLowerCase()`, `includes()`
 * and `a || b` on strings, where the empty string is falsy.
 */
module JsText {

  /** The characters `String.prototype.trim` removes: ECMAScript WhiteSpace and LineTerminator. */
  predicate IsWhitespace(c: char) {
    || c == ' ' || c == '\t' || c == '\n' || c == '\r'
    || c == '\U{000B}' || c == '\U{000C}' || c == '\U{00A0}' || c == '\U{1680}'
    || ('\U{2000}' <= c <= '\U{200A}')
    || c == '\U{2028}' || c == '\U{2029}' || c == '\U{202F}' || c == '\U{205F}'
    || c == '\U{3000}' || c == '\U{FEFF}'
  }

  /** Every character of `s` is whitespace (vacuously so for ""). */
  predicate IsBlank(s: string) {
    forall i :: 0 <= i < |s| ==> IsWhitespace(s[i])
  }

  /** `s` with its leading whitespace removed. */
  function TrimStart(s: string): (r: string)
    ensures |r| <= |s| && r == s[|s| - |r|..]
    ensures r != [] ==> !IsWhitespace(r[0])
    ensures forall i :: 0 <= i < |s| - |r| ==> IsWhitespace(s[i])
  {
    if s != [] && IsWhitespace(s[0]) then TrimStart(s[1..]) else s
  }

  /** `s` with its trailing whitespace removed. */
  function TrimEnd(s: string): (r: string)
    ensures |r| <= |s| && r == s[..|r|]
    ensures r != [] ==> !IsWhitespace(r[|r| - 1])
    ensures forall i :: |r| <= i < |s| ==> IsWhitespace(s[i])
  {
    if s != [] && IsWhitespace(s[|s| - 1]) then TrimEnd(s[..|s| - 1]) else s
  }

  /** `s.trim()` */
  function Trim(s: string): string {
    TrimEnd(TrimStart(s))
  }

  /** `!s.trim()` holds exactly when `s` is made of whitespace only. */
  lemma TrimEmptyIffBlank(s: string)
    ensures Trim(s) == "" <==> IsBlank(s)
  {
  }

  /** `c.toLowerCase()` for the ASCII letters. */
  function LowerChar(c: char): (r: char)
    ensures 'A' <= c <= 'Z' ==> 'a' <= r <= 'z' && r as int - c as int == 32
    ensures !('A' <= c <= 'Z') ==> r == c
  {
    if 'A' <= c <= 'Z' then (c as int + 32) as char else c
  }

  /** `s.toLowerCase()`, restricted to ASCII case mapping. */
  function ToLower(s: string): (r: string)
    ensures |r| == |s|
    ensures forall i :: 0 <= i < |s| ==> r[i] == LowerChar(s[i])
  {
    seq(|s|, i requires 0 <= i < |s| => LowerChar(s[i]))
  }

  /** Lower-casing is idempotent, so comparing lower-cased values is an equivalence. */
  lemma ToLowerIdempotent(s: string)
    ensures ToLower(ToLower(s)) == ToLower(s)
  {
  }

  predicate IsPrefix(p: string, s: string) {
    |p| <= |s| && s[..|p|] == p
  }

  /** `s.includes(needle)`: `needle` occurs in `s` at some position. */
  predicate Includes(s: string, needle: string)
    decreases |s|
  {
    IsPrefix(needle, s) || (s != [] && Includes(s[1..], needle))
  }

  /** `needle` occurs in `s` at position `k`. */
  predicate OccursAt(s: string, needle: string, k: int) {
    0 <= k && k + |needle| <= |s| && s[k..k + |needle|] == needle
  }

  /** `includes` is substring search: it holds exactly when the needle occurs at some position. */
  lemma {:induction false} IncludesIffOccurs(s: string, needle: string)
    ensures Includes(s, needle) <==> exists k :: OccursAt(s, needle, k)
    decreases |s|
  {
    if IsPrefix(needle, s) {
      assert OccursAt(s, needle, 0);
    } else if s != [] {
      IncludesIffOccurs(s[1..], needle);
      if exists k :: OccursAt(s[1..], needle, k) {
        var k :| OccursAt(s[1..], needle, k);
        assert s[k + 1..k + 1 + |needle|] == s[1..][k..k + |needle|];
        assert OccursAt(s, needle, k + 1);
      }
      if exists k :: OccursAt(s, needle, k) {
        var k :| OccursAt(s, needle, k);
        assert k != 0;
        assert s[1..][k - 1..k - 1 + |needle|] == s[k..k + |needle|];
        assert OccursAt(s[1..], needle, k - 1);
      }
    }
  }

  /** The empty string includes nothing but the empty string. */
  lemma {:induction false} EmptyIncludesOnlyEmpty(needle: string)
    ensures Includes("", needle) <==> needle == ""
  {
  }

  /** JavaScript `a || b` on two strings: `a` unless it is the (falsy) empty string. */
  function Or(a: string, b: string): (r: string)
    ensures r == a || r == b
    ensures r == "" <==> a == "" && b == ""
    ensures a != "" ==> r == a
  {
    if a != "" then a else b
  }
}
