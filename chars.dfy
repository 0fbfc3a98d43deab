/**
 * Character classes used by the JavaScript regular expressions and by
 * `String.prototype.toLowerCase`, restricted to the characters the scoring
 * engine cares about (ASCII and the Latin-1 letters).
 */
module Chars {

  /**
   * A given lower-casing map: ASCII `A`-`Z` and the Latin-1 capitals
   * U+00C0..U+00DE (except the multiplication sign U+00D7) move down by 0x20,
   * every other character is left alone.
   */
  function ToLower(c: char): (r: char)
    ensures IsUpper(c) ==> r as int == c as int + 0x20
    ensures !IsUpper(c) ==> r == c
    ensures !IsUpper(r)
  {
    if IsUpper(c) then (c as int + 0x20) as char else c
  }

  predicate IsUpper(c: char)
  {
    ('A' <= c <= 'Z') || ('\U{00C0}' <= c <= '\U{00DE}' && c != '\U{00D7}')
  }

  /** ECMAScript line terminators: what the regex `.` does not match. */
  predicate IsLineTerminator(c: char)
  {
    c == '\n' || c == '\r' || c == '\U{2028}' || c == '\U{2029}'
  }

  /** The regex class `\s` (ECMAScript WhiteSpace and LineTerminator), also what `trim` removes. */
  predicate IsWhitespace(c: char)
  {
    || c == ' ' || c == '\t' || c == '\U{000B}' || c == '\U{000C}' || c == '\U{00A0}'
    || c == '\U{FEFF}' || c == '\U{1680}' || ('\U{2000}' <= c <= '\U{200A}')
    || c == '\U{202F}' || c == '\U{205F}' || c == '\U{3000}'
    || IsLineTerminator(c)
  }

  /** `s.toLowerCase()` under the character map above. */
  function LowerCase(s: string): (r: string)
    ensures |r| == |s|
    ensures forall i :: 0 <= i < |s| ==> r[i] == ToLower(s[i])
  {
    if s == [] then [] else [ToLower(s[0])] + LowerCase(s[1..])
  }

  /** Lower-casing is idempotent: its output is made of characters that are already lower case. */
  lemma LowerCaseIdempotent(s: string)
    ensures LowerCase(LowerCase(s)) == LowerCase(s)
  {
  }

  /** A string whose characters are all lower case is its own lower-case form. */
  lemma {:induction false} LowerCaseOfLower(s: string)
    requires forall i :: 0 <= i < |s| ==> !IsUpper(s[i])
    ensures LowerCase(s) == s
  {
    if s != [] {
      LowerCaseOfLower(s[1..]);
    }
  }
}
