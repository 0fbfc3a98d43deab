/**
 * Decimal numerals: JavaScript's conversion of an integer to a string (the
 * `${id}` of the audio file names, `String(idx)` of the phrase-jump options)
 * and `parseInt(s, 10)` (app.js:980), which reads it back.
 */
module Decimal {
  import opened Wrappers
  import opened Chars
  import opened Text

  predicate IsDigit(c: char)
  {
    '0' <= c <= '9'
  }

  function DigitChar(d: nat): (c: char)
    requires d < 10
    ensures IsDigit(c) && (c as int) - ('0' as int) == d
  {
    (('0' as int) + d) as char
  }

  /** The decimal numeral of `n`, without leading zeros. */
  function NatToString(n: nat): (s: string)
    ensures |s| > 0
    ensures forall i :: 0 <= i < |s| ==> IsDigit(s[i])
    ensures s[0] == '0' ==> n == 0 && s == "0"
  {
    if n < 10 then [DigitChar(n)] else NatToString(n / 10) + [DigitChar(n % 10)]
  }

  /** `String(i)` for an integer: a minus sign before the numeral of a negative number. */
  function IntToString(i: int): (s: string)
    ensures |s| > 0
    ensures forall k :: 0 <= k < |s| ==> IsDigit(s[k]) || (k == 0 && s[k] == '-')
    ensures i >= 0 ==> forall k :: 0 <= k < |s| ==> IsDigit(s[k])
  {
    if i < 0 then "-" + NatToString(-i) else NatToString(i)
  }

  /** The value of a string of digits. */
  function DigitsValue(s: string): (n: nat)
    requires forall i :: 0 <= i < |s| ==> IsDigit(s[i])
  {
    if s == [] then 0
    else
      assert IsDigit(s[|s| - 1]);
      DigitsValue(s[..|s| - 1]) * 10 + ((s[|s| - 1] as int) - ('0' as int))
  }

  /** The length of the longest prefix of `s` made of digits. */
  function DigitPrefix(s: string): (n: nat)
    ensures n <= |s|
    ensures forall i :: 0 <= i < n ==> IsDigit(s[i])
    ensures n < |s| ==> !IsDigit(s[n])
  {
    if s != [] && IsDigit(s[0]) then 1 + DigitPrefix(s[1..]) else 0
  }

  /**
   * `parseInt(s, 10)`: leading whitespace skipped, an optional sign, then the
   * longest run of digits; `None` (the source's `NaN`) when there is no digit.
   */
  function ParseInt(s: string): (r: Option<int>)
  {
    ParseSigned(s[LeadingWhitespace(s)..])
  }

  /** `parseInt` after the whitespace: a `-` negates, a `+` is skipped. */
  function ParseSigned(t: string): (r: Option<int>)
  {
    if |t| > 0 && t[0] == '-' then
      match ParseDigits(t[1..])
      case None => None
      case Some(v) => Some(-v)
    else if |t| > 0 && t[0] == '+' then ParseDigits(t[1..])
    else ParseDigits(t)
  }

  /** The value of the leading digits, `None` when there are none. */
  function ParseDigits(digits: string): (r: Option<int>)
    ensures r.Some? <==> |digits| > 0 && IsDigit(digits[0])
    ensures r.Some? ==> r.value >= 0
  {
    var n := DigitPrefix(digits);
    if n == 0 then None else Some(DigitsValue(digits[..n]))
  }

  /** Reading a numeral back gives the number. */
  lemma {:induction false} NatToStringValue(n: nat)
    ensures DigitsValue(NatToString(n)) == n
  {
    if n >= 10 {
      NatToStringValue(n / 10);
      var s := NatToString(n);
      assert s[..|s| - 1] == NatToString(n / 10);
    }
  }

  /** `parseInt(String(i), 10) == i`: a phrase-jump option's value parses back to its index. */
  lemma ParseIntOfIntToString(i: int)
    ensures ParseInt(IntToString(i)) == Some(i)
  {
    ParseIntOfNumeral(i, "");
    assert IntToString(i) + "" == IntToString(i);
  }

  /** A numeral followed by anything that does not start with a digit parses to its number. */
  lemma ParseIntOfNumeral(i: int, rest: string)
    requires rest == [] || !IsDigit(rest[0])
    ensures ParseInt(IntToString(i) + rest) == Some(i)
  {
    var s := IntToString(i) + rest;
    assert !IsWhitespace(s[0]);
    assert s[LeadingWhitespace(s)..] == s;
    var m := if i < 0 then -i else i;
    NumeralDigits(m, rest);
    if i < 0 {
      assert s[1..] == NatToString(m) + rest;
    }
  }

  /** The digits of a numeral followed by a non-digit read back as its number. */
  lemma NumeralDigits(n: nat, rest: string)
    requires rest == [] || !IsDigit(rest[0])
    ensures ParseDigits(NatToString(n) + rest) == Some(n)
  {
    var numeral := NatToString(n);
    DigitPrefixOf(numeral, rest);
    assert (numeral + rest)[..|numeral|] == numeral;
    NatToStringValue(n);
  }

  lemma {:induction false} DigitPrefixOf(numeral: string, rest: string)
    requires forall i :: 0 <= i < |numeral| ==> IsDigit(numeral[i])
    requires rest == [] || !IsDigit(rest[0])
    ensures DigitPrefix(numeral + rest) == |numeral|
  {
    if numeral != [] {
      assert (numeral + rest)[1..] == numeral[1..] + rest;
      DigitPrefixOf(numeral[1..], rest);
    }
  }

  /** A string without a digit does not parse. */
  lemma ParseIntNoDigit(s: string)
    requires forall k :: 0 <= k < |s| ==> !IsDigit(s[k])
    ensures ParseInt(s) == None
  {
    var t := s[LeadingWhitespace(s)..];
    assert |t| > 0 ==> t[0] in s;
    assert |t| > 1 ==> t[1] in s;
  }
}
