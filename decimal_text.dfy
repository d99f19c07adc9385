/** Decimal text of integers, as string interpolation writes an `int`
    (invariant culture: ASCII digits, a leading '-' for negatives), and the
    reading that recovers the number from such text. */
module DecimalText {
  import opened Primitives

  predicate IsDigit(c: char)
  {
    '0' <= c <= '9'
  }

  predicate AllDigits(s: string)
  {
    forall i :: 0 <= i < |s| ==> IsDigit(s[i])
  }

  function DigitChar(d: nat): (c: char)
    requires d < 10
    ensures IsDigit(c) && c as int - '0' as int == d
  {
    ('0' as int + d) as char
  }

  function DigitValue(c: char): nat
    requires IsDigit(c)
  {
    c as int - '0' as int
  }

  /** The shortest decimal text of a non-negative number (no leading zeros). */
  function NatToDecimal(n: nat): (s: string)
    ensures |s| > 0 && AllDigits(s)
    ensures |s| > 1 ==> s[0] != '0'
    decreases n
  {
    if n < 10 then [DigitChar(n)] else NatToDecimal(n / 10) + [DigitChar(n % 10)]
  }

  /** The number a string of digits denotes. */
  function DecimalValue(s: string): nat
    requires AllDigits(s)
    decreases |s|
  {
    if s == [] then 0 else DecimalValue(s[..|s| - 1]) * 10 + DigitValue(s[|s| - 1])
  }

  /** Reading back the text of a number gives the number. */
  lemma {:induction false} NatDecimalRoundTrip(n: nat)
    ensures DecimalValue(NatToDecimal(n)) == n
    decreases n
  {
    var s := NatToDecimal(n);
    if n >= 10 {
      NatDecimalRoundTrip(n / 10);
      assert s[..|s| - 1] == NatToDecimal(n / 10);
    }
  }

  /** int.ToString() of a 32-bit integer. */
  function Int32ToDecimal(n: int32): (s: string)
    ensures |s| > 0 && (s[0] == '-' <==> n < 0)
    ensures n < 0 ==> |s| > 1 && AllDigits(s[1..]) && s[1] != '0'
    ensures n >= 0 ==> AllDigits(s) && (|s| > 1 ==> s[0] != '0')
  {
    if n < 0 then "-" + NatToDecimal(-(n as int)) else NatToDecimal(n as int)
  }

  /** The longest run of digits at the start of s. */
  function LeadingDigits(s: string): (d: string)
    ensures d <= s && AllDigits(d)
    ensures |d| < |s| ==> !IsDigit(s[|d|])
    decreases |s|
  {
    if s == [] || !IsDigit(s[0]) then [] else [s[0]] + LeadingDigits(s[1..])
  }

  /** The optionally signed decimal number at the start of s, if there is one. */
  function ParseLeadingInt(s: string): Option<int>
  {
    if |s| > 0 && s[0] == '-' then
      var d := LeadingDigits(s[1..]);
      if d == [] then None else Some(-(DecimalValue(d) as int))
    else
      var d := LeadingDigits(s);
      if d == [] then None else Some(DecimalValue(d))
  }

  /** The digits of a number end where the first non-digit begins. */
  lemma {:induction false} LeadingDigitsOfNumber(d: string, rest: string)
    requires AllDigits(d)
    requires rest == [] || !IsDigit(rest[0])
    ensures LeadingDigits(d + rest) == d
    decreases |d|
  {
    if d != [] {
      assert (d + rest)[1..] == d[1..] + rest;
      LeadingDigitsOfNumber(d[1..], rest);
    }
  }

  /** The text of a non-negative number reads back as that number. */
  lemma ReadBackNat(m: nat, rest: string)
    requires rest == [] || !IsDigit(rest[0])
    ensures ParseLeadingInt(NatToDecimal(m) + rest) == Some(m)
  {
    var digits := NatToDecimal(m);
    assert (digits + rest)[0] == digits[0];
    LeadingDigitsOfNumber(digits, rest);
    NatDecimalRoundTrip(m);
  }

  /** The text of a negative number, sign first, reads back as that number. */
  lemma ReadBackNegative(m: nat, rest: string)
    requires rest == [] || !IsDigit(rest[0])
    ensures ParseLeadingInt("-" + NatToDecimal(m) + rest) == Some(-(m as int))
  {
    var digits := NatToDecimal(m);
    var text := "-" + digits + rest;
    assert text[0] == '-' && text[1..] == digits + rest;
    LeadingDigitsOfNumber(digits, rest);
    NatDecimalRoundTrip(m);
  }

  /** Reading the text of a 32-bit integer back, whatever non-digit text
      follows it, gives the integer. */
  lemma ReadBackInt32(n: int32, rest: string)
    requires rest == [] || !IsDigit(rest[0])
    ensures ParseLeadingInt(Int32ToDecimal(n) + rest) == Some(n as int)
  {
    if n < 0 {
      ReadBackNegative(-(n as int), rest);
    } else {
      ReadBackNat(n as int, rest);
    }
  }
}
