/**
  Decimal rendering of an integer, as a template literal prints an
  integer-valued number into a request path, together with a parser that
  reads such a rendering back.
 */
module Decimal {
  import opened Wrappers

  predicate IsDigit(c: char) {
    '0' <= c <= '9'
  }

  predicate AllDigits(s: string) {
    forall i :: 0 <= i < |s| ==> IsDigit(s[i])
  }

  function DigitChar(d: nat): (c: char)
    requires d < 10
    ensures IsDigit(c)
  {
    ('0' as int + d) as char
  }

  function DigitValue(c: char): (d: nat)
    requires IsDigit(c)
    ensures d < 10 && DigitChar(d) == c
  {
    (c as int - '0' as int)
  }

  /** The digits of `n`, most significant first, without leading zeros. */
  function Digits(n: nat): (s: string)
    ensures 1 <= |s| && AllDigits(s)
    ensures |s| > 1 ==> s[0] != '0'
    decreases n
  {
    if n < 10 then [DigitChar(n)]
    else
      var front := Digits(n / 10);
      assert front[0] == (front + [DigitChar(n % 10)])[0];
      front + [DigitChar(n % 10)]
  }

  /** The rendering of `i`: a minus sign for negative values, then its magnitude's digits. */
  function Show(i: int): string {
    if i < 0 then "-" + Digits(-i) else Digits(i)
  }

  /** The value of a non-empty run of decimal digits. */
  function ParseDigits(s: string): nat
    requires 1 <= |s| && AllDigits(s)
    decreases |s|
  {
    if |s| == 1 then DigitValue(s[0])
    else 10 * ParseDigits(s[..|s| - 1]) + DigitValue(s[|s| - 1])
  }

  /** Reads an optionally signed run of decimal digits; anything else is `None`. */
  function Parse(s: string): Option<int> {
    if |s| == 0 then None
    else if s[0] == '-' then
      if 2 <= |s| && AllDigits(s[1..]) then Some(-(ParseDigits(s[1..]) as int)) else None
    else if AllDigits(s) then Some(ParseDigits(s))
    else None
  }

  lemma {:induction false} ParseDigitsOfDigits(n: nat)
    ensures ParseDigits(Digits(n)) == n
    decreases n
  {
    if n >= 10 {
      var s := Digits(n);
      var front := Digits(n / 10);
      assert s == front + [DigitChar(n % 10)];
      assert s[..|s| - 1] == front;
      ParseDigitsOfDigits(n / 10);
    }
  }

  /** Parsing undoes rendering, so two different integers never render alike. */
  lemma ParseShow(i: int)
    ensures Parse(Show(i)) == Some(i)
  {
    if i < 0 {
      var s := Show(i);
      assert s[1..] == Digits(-i);
      ParseDigitsOfDigits(-i);
    } else {
      ParseDigitsOfDigits(i);
    }
  }

  lemma ShowInjective(i: int, j: int)
    requires Show(i) == Show(j)
    ensures i == j
  {
    ParseShow(i);
    ParseShow(j);
  }
}
