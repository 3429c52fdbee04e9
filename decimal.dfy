/**
 * Ruby's `Integer#to_s` (base 10), used when a status code is looked up by
 * its text and when a recipient-error count is glued onto a path, together
 * with the parser that undoes it.
 */
module Decimal {
  import opened Wrappers

  predicate IsDigit(c: char) {
    '0' <= c <= '9'
  }

  predicate AllDigits(s: string) {
    forall i :: 0 <= i < |s| ==> IsDigit(s[i])
  }

  function DigitChar(d: nat): (c: char)
    requires d < 10
    ensures IsDigit(c)
  {
    ('0' as int + d) as char
  }

  function DigitValue(c: char): (d: nat)
    requires IsDigit(c)
    ensures d < 10 && DigitChar(d) == c
  {
    c as int - '0' as int
  }

  /** Digits of a natural number, most significant first, no leading zeros. */
  function Digits(n: nat): (s: string)
    ensures |s| > 0 && AllDigits(s)
    ensures |s| > 1 ==> s[0] != '0'
    decreases n
  {
    if n < 10 then [DigitChar(n)] else Digits(n / 10) + [DigitChar(n % 10)]
  }

  /** `n.to_s`: a minus sign for negative numbers, then the digits. */
  function ToS(n: int): (s: string)
    ensures |s| > 0
    ensures s[0] == '-' || IsDigit(s[0])
    ensures (s[0] == '-') == (n < 0)
    ensures AllDigits(s[1..])
    ensures |s| > (if n < 0 then 2 else 1) ==> s[if n < 0 then 1 else 0] != '0'
    ensures n < 0 ==> s != "-0"
  {
    if n < 0 then "-" + Digits(-n) else Digits(n)
  }

  /** Value of a run of digits, most significant first. */
  function DigitsValue(s: string): nat
    requires AllDigits(s)
  {
    if |s| == 0 then 0 else DigitsValue(s[..|s| - 1]) * 10 + DigitValue(s[|s| - 1])
  }

  /** Reads back an optional minus sign followed by at least one digit. */
  function Parse(s: string): Option<int> {
    if |s| > 0 && s[0] == '-' then
      if |s| > 1 && AllDigits(s[1..]) then Some(0 - DigitsValue(s[1..]) as int) else None
    else if |s| > 0 && AllDigits(s) then Some(DigitsValue(s) as int)
    else None
  }

  lemma {:induction false} DigitsValueOfDigits(n: nat)
    ensures DigitsValue(Digits(n)) == n
    decreases n
  {
    if n >= 10 {
      DigitsValueOfDigits(n / 10);
      var s := Digits(n);
      assert s[..|s| - 1] == Digits(n / 10);
      assert DigitValue(s[|s| - 1]) == n % 10;
    }
  }

  /** Parsing the rendered text gives the number back. */
  lemma ParseToS(n: int)
    ensures Parse(ToS(n)) == Some(n)
  {
    if n < 0 {
      DigitsValueOfDigits(-n);
      assert ToS(n)[1..] == Digits(-n);
    } else {
      DigitsValueOfDigits(n);
    }
  }

  /** Distinct numbers render to distinct text. */
  lemma ToSInjective(a: int, b: int)
    ensures ToS(a) == ToS(b) <==> a == b
  {
    if ToS(a) == ToS(b) {
      ParseToS(a);
      ParseToS(b);
    }
  }
}
