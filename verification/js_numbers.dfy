/**
 * The JavaScript built-ins the trip synthesis leans on: `parseInt` with no radix
 * (ECMAScript section 19.2.5, "parseInt ( string, radix )") and the decimal rendering
 * of a non-negative integer that a template literal such as `Day ${i + 1}` produces.
 *
 * Numbers are unbounded integers here. `parseInt` returns a double, but rounding to a
 * double is monotone and exact up to 2^53, so every comparison the trip code makes with
 * the result (against 0 and against the largest array length) comes out the same.
 */
module JsNumbers {
  import opened Wrappers

  /** StrWhiteSpaceChar: the WhiteSpace and LineTerminator code points that `parseInt` skips. */
  predicate IsStrWhiteSpace(c: char)
  {
    || c == '\t' || c == '\U{000B}' || c == '\U{000C}' || c == '\U{FEFF}'
    || c == '\n' || c == '\r' || c == '\U{2028}' || c == '\U{2029}'
    // the Unicode space separators (general category Zs)
    || c == ' ' || c == '\U{00A0}' || c == '\U{1680}' || ('\U{2000}' <= c <= '\U{200A}')
    || c == '\U{202F}' || c == '\U{205F}' || c == '\U{3000}'
  }

  /** The string with its leading white space removed. */
  function TrimStart(s: string): (r: string)
    ensures |r| <= |s| && r == s[|s| - |r|..]
    ensures forall i :: 0 <= i < |s| - |r| ==> IsStrWhiteSpace(s[i])
    ensures r == [] || !IsStrWhiteSpace(r[0])
  {
    if |s| > 0 && IsStrWhiteSpace(s[0]) then TrimStart(s[1..]) else s
  }

  predicate IsDecimalDigit(c: char) { '0' <= c <= '9' }

  /** A digit of radix 16 when `hex` holds, of radix 10 otherwise. */
  predicate IsRadixDigit(c: char, hex: bool)
  {
    IsDecimalDigit(c) || (hex && ('a' <= c <= 'f' || 'A' <= c <= 'F'))
  }

  function Radix(hex: bool): nat { if hex then 16 else 10 }

  function RadixDigitValue(c: char, hex: bool): (d: nat)
    requires IsRadixDigit(c, hex)
    ensures d < Radix(hex)
  {
    if IsDecimalDigit(c) then c as int - '0' as int
    else if 'a' <= c <= 'f' then c as int - 'a' as int + 10
    else c as int - 'A' as int + 10
  }

  /** The length of the longest prefix of `s` made of digits of the radix. */
  function DigitRun(s: string, hex: bool): (n: nat)
    ensures n <= |s|
    ensures forall i :: 0 <= i < n ==> IsRadixDigit(s[i], hex)
    ensures n == |s| || !IsRadixDigit(s[n], hex)
  {
    if |s| > 0 && IsRadixDigit(s[0], hex) then 1 + DigitRun(s[1..], hex) else 0
  }

  /** The value of a string of digits, most significant digit first. */
  function DigitsValue(digits: string, hex: bool): (v: nat)
    requires forall i :: 0 <= i < |digits| ==> IsRadixDigit(digits[i], hex)
  {
    if digits == [] then 0
    else
      DigitsValue(digits[..|digits| - 1], hex) * Radix(hex)
      + RadixDigitValue(digits[|digits| - 1], hex)
  }

  /**
   * The digits after the sign: radix 16 after a "0x" or "0X" prefix, radix 10 otherwise,
   * read up to the first character that is not a digit; `None` when there is no digit.
   */
  function ParseUnsigned(u: string): (r: Option<nat>)
    ensures r.Some? ==> |u| > 0 && IsDecimalDigit(u[0])
  {
    var hex := |u| >= 2 && u[0] == '0' && (u[1] == 'x' || u[1] == 'X');
    var body := if hex then u[2..] else u;
    var n := DigitRun(body, hex);
    if n == 0 then None else Some(DigitsValue(body[..n], hex))
  }

  /**
   * `parseInt(s)` with no radix: skip leading white space, take an optional sign, read the
   * digits; `None` is `NaN`.
   */
  function ParseInt(s: string): (r: Option<int>)
    ensures r.Some? ==> exists i :: 0 <= i < |s| && IsDecimalDigit(s[i])
  {
    var t := TrimStart(s);
    var negative := |t| > 0 && t[0] == '-';
    var unsigned := if |t| > 0 && (t[0] == '-' || t[0] == '+') then t[1..] else t;
    match ParseUnsigned(unsigned)
    case None => None
    case Some(v) => Some(if negative then -(v as int) else v)
  }

  function DecimalDigitChar(d: nat): (c: char)
    requires d < 10
    ensures IsDecimalDigit(c) && RadixDigitValue(c, false) == d
  {
    ('0' as int + d) as char
  }

  /** The decimal text of `n`, as `String(n)` gives it for an integer: no sign, no leading zero. */
  function NatToString(n: nat): (r: string)
    ensures |r| >= 1
    ensures forall i :: 0 <= i < |r| ==> IsDecimalDigit(r[i])
    ensures r[0] == '0' <==> n == 0
  {
    if n < 10 then [DecimalDigitChar(n)]
    else NatToString(n / 10) + [DecimalDigitChar(n % 10)]
  }

  /** Reading back the decimal text of `n` gives `n`. */
  lemma {:induction false} DigitsValueOfNatToString(n: nat)
    ensures DigitsValue(NatToString(n), false) == n
  {
    if n >= 10 {
      var s := NatToString(n);
      assert s[..|s| - 1] == NatToString(n / 10);
      DigitsValueOfNatToString(n / 10);
    }
  }

  /** A digit run followed by a non-digit stops exactly at the end of the run. */
  lemma {:induction false} DigitRunOfDigitsThen(s: string, rest: string, hex: bool)
    requires forall i :: 0 <= i < |s| ==> IsRadixDigit(s[i], hex)
    requires rest == [] || !IsRadixDigit(rest[0], hex)
    ensures DigitRun(s + rest, hex) == |s|
  {
    if s != [] {
      assert (s + rest)[1..] == s[1..] + rest;
      DigitRunOfDigitsThen(s[1..], rest, hex);
    }
  }

  /**
   * A decimal prefix is read and what follows it is ignored ("3x" gives 3), unless the
   * prefix is "0" and an "x" follows, which makes it a hexadecimal prefix.
   */
  lemma ParseUnsignedOfDecimalPrefix(n: nat, rest: string)
    requires rest == [] || !IsDecimalDigit(rest[0])
    requires n == 0 ==> rest == [] || (rest[0] != 'x' && rest[0] != 'X')
    ensures ParseUnsigned(NatToString(n) + rest) == Some(n)
  {
    var s := NatToString(n);
    var u := s + rest;
    assert u[0] == s[0];
    assert |u| >= 2 && u[0] == '0' ==> n == 0 && u[1] == rest[0];
    DigitRunOfDigitsThen(s, rest, false);
    assert u[..|s|] == s;
    DigitsValueOfNatToString(n);
  }

  /** Text that starts with a digit has neither white space nor a sign to skip. */
  lemma ParseIntStartingWithDigit(s: string)
    requires s != [] && IsDecimalDigit(s[0])
    ensures ParseInt(s) == match ParseUnsigned(s) case None => None case Some(v) => Some(v)
  {
    assert !IsStrWhiteSpace(s[0]);
    assert TrimStart(s) == s;
  }

  /** `parseInt` of a decimal numeral followed by text that does not continue it ("3x" gives 3). */
  lemma ParseIntOfDecimalPrefix(n: nat, rest: string)
    requires rest == [] || !IsDecimalDigit(rest[0])
    requires n == 0 ==> rest == [] || (rest[0] != 'x' && rest[0] != 'X')
    ensures ParseInt(NatToString(n) + rest) == Some(n)
  {
    var u := NatToString(n) + rest;
    assert u[0] == NatToString(n)[0];
    ParseUnsignedOfDecimalPrefix(n, rest);
    ParseIntStartingWithDigit(u);
  }

  /** Round trip: `parseInt(String(n)) == n`. */
  lemma ParseIntOfNatToString(n: nat)
    ensures ParseInt(NatToString(n)) == Some(n)
  {
    assert NatToString(n) + [] == NatToString(n);
    ParseIntOfDecimalPrefix(n, []);
  }

  /** Distinct numbers have distinct decimal texts. */
  lemma NatToStringInjective(m: nat, n: nat)
    requires NatToString(m) == NatToString(n)
    ensures m == n
  {
    ParseIntOfNatToString(m);
    ParseIntOfNatToString(n);
  }

  /** `parseInt` gives `NaN` for text without a digit, the empty string among them. */
  lemma ParseIntWithoutDigits(s: string)
    requires forall i :: 0 <= i < |s| ==> !IsDecimalDigit(s[i])
    ensures ParseInt(s) == None
  {
  }

  /** A minus sign negates the value read. */
  lemma ParseIntOfNegated(n: nat)
    ensures ParseInt("-" + NatToString(n)) == Some(-(n as int))
  {
    var s := NatToString(n);
    var t := "-" + s;
    assert TrimStart(t) == t;
    assert t[1..] == s + [];
    ParseUnsignedOfDecimalPrefix(n, []);
  }
}
