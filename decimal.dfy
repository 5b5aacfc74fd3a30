/** Java's decimal rendering of a `long` (`Long.toString`, used when a
    `Long` is concatenated to a string) and the parse that inverts it. */
module Decimal {

  import opened Wrappers

  /** The character of one decimal digit. */
  function DigitChar(d: int): (c: char)
    requires 0 <= d < 10
    ensures '0' <= c <= '9' && c as int - '0' as int == d
  {
    ('0' as int + d) as char
  }

  /** The digits of `n` with no leading zero ("0" for zero). */
  function NatDigits(n: nat): (s: string)
    ensures |s| > 0
    ensures forall k :: 0 <= k < |s| ==> '0' <= s[k] <= '9'
  {
    if n < 10 then [DigitChar(n)] else NatDigits(n / 10) + [DigitChar(n % 10)]
  }

  /** `Long.toString(n)`: a minus sign for negative values, then the digits
      of the magnitude. */
  function LongToString(n: int): (s: string)
    ensures |s| > 0
  {
    if n < 0 then "-" + NatDigits(-n) else NatDigits(n)
  }

  /** True when every character is a decimal digit. */
  predicate AllDigits(s: string)
  {
    forall k :: 0 <= k < |s| ==> '0' <= s[k] <= '9'
  }

  /** The value of a string of decimal digits, read left to right. */
  function DigitsValue(s: string): (v: nat)
    requires AllDigits(s)
  {
    if s == [] then 0
    else DigitsValue(s[..|s| - 1]) * 10 + (s[|s| - 1] as int - '0' as int)
  }

  /** Reads an optionally signed decimal integer; `None` when the text is not one. */
  function ParseLong(s: string): (r: Option<int>)
  {
    if |s| > 0 && s[0] == '-' then
      (if |s| > 1 && AllDigits(s[1..]) then Some(-(DigitsValue(s[1..]) as int)) else None)
    else if |s| > 0 && AllDigits(s) then Some(DigitsValue(s))
    else None
  }

  lemma {:induction false} NatDigitsValue(n: nat)
    ensures AllDigits(NatDigits(n)) && DigitsValue(NatDigits(n)) == n
  {
    var s := NatDigits(n);
    if n >= 10 {
      NatDigitsValue(n / 10);
      assert s[..|s| - 1] == NatDigits(n / 10);
    }
  }

  /** Parsing the rendering of any integer gives back that integer. */
  lemma {:induction false} ParseLongToString(n: int)
    ensures ParseLong(LongToString(n)) == Some(n)
  {
    if n < 0 {
      NatDigitsValue(-n);
      assert ("-" + NatDigits(-n))[1..] == NatDigits(-n);
    } else {
      NatDigitsValue(n);
      assert NatDigits(n)[0] != '-';
    }
  }

  /** Distinct integers render to distinct strings. */
  lemma LongToStringInjective(a: int, b: int)
    requires LongToString(a) == LongToString(b)
    ensures a == b
  {
    ParseLongToString(a);
    ParseLongToString(b);
  }
}
