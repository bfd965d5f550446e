/** Decimal rendering of integers, as a JavaScript template literal `${n}` writes an integral
    number of magnitude below 10^21 (larger ones are written in exponential form), and the
    reading back that shows the rendering loses nothing. */
module Decimal {
  import opened Wrappers

  predicate IsDigit(c: char) {
    '0' <= c <= '9'
  }

  predicate AllDigits(s: string) {
    forall i :: 0 <= i < |s| ==> IsDigit(s[i])
  }

  function DigitChar(d: int): (c: char)
    requires 0 <= d < 10
    ensures IsDigit(c) && c as int - '0' as int == d
  {
    ('0' as int + d) as char
  }

  /** The digits of `n`, most significant first, without leading zeros. */
  function Digits(n: nat): (s: string)
    ensures s != [] && AllDigits(s)
  {
    if n < 10 then [DigitChar(n)] else Digits(n / 10) + [DigitChar(n % 10)]
  }

  /** `${n}` for an integral number below 10^21 in magnitude: a minus sign for negative values,
      then the digits. */
  function Show(n: int): string {
    if n < 0 then "-" + Digits(-n) else Digits(n)
  }

  /** The value of a string of decimal digits. */
  function DigitsValue(s: string): nat
    requires AllDigits(s)
  {
    if s == [] then 0 else DigitsValue(s[..|s| - 1]) * 10 + (s[|s| - 1] as int - '0' as int)
  }

  /** The longest prefix of `s` made of digits. */
  function LeadingDigits(s: string): (d: string)
    ensures d <= s && AllDigits(d)
    ensures |d| < |s| ==> !IsDigit(s[|d|])
  {
    if s != [] && IsDigit(s[0]) then [s[0]] + LeadingDigits(s[1..]) else []
  }

  /** Reads the digits at the front of `s`, if there is at least one. */
  function ReadNat(s: string): Option<nat> {
    var d := LeadingDigits(s);
    if d == [] then None else Some(DigitsValue(d))
  }

  /** Reads the integer at the front of `s`: an optional minus sign and at least one digit. */
  function ReadInt(s: string): Option<int> {
    if s != [] && s[0] == '-' then
      match ReadNat(s[1..])
      case None => None
      case Some(v) => Some(0 - v as int)
    else
      match ReadNat(s)
      case None => None
      case Some(v) => Some(v as int)
  }

  lemma {:induction false} DigitsValueOfDigits(n: nat)
    ensures DigitsValue(Digits(n)) == n
  {
    if n >= 10 {
      var d := Digits(n / 10);
      assert (d + [DigitChar(n % 10)])[..|d|] == d;
      DigitsValueOfDigits(n / 10);
    }
  }

  lemma {:induction false} LeadingDigitsOf(d: string, rest: string)
    requires AllDigits(d)
    requires rest == [] || !IsDigit(rest[0])
    ensures LeadingDigits(d + rest) == d
  {
    if d != [] {
      assert (d + rest)[1..] == d[1..] + rest;
      LeadingDigitsOf(d[1..], rest);
    } else {
      assert d + rest == rest;
    }
  }

  lemma ReadDigits(d: string, rest: string)
    requires d != [] && AllDigits(d)
    requires rest == [] || !IsDigit(rest[0])
    ensures ReadNat(d + rest) == Some(DigitsValue(d))
    ensures ReadInt(d + rest) == Some(DigitsValue(d) as int)
  {
    LeadingDigitsOf(d, rest);
    var s := d + rest;
    assert s[0] == d[0] && IsDigit(s[0]);
  }

  /** A minus sign negates what follows it. */
  lemma ReadNegative(t: string)
    requires ReadNat(t).Some?
    ensures ReadInt("-" + t) == Some(0 - ReadNat(t).value as int)
  {
    var s := "-" + t;
    assert s[0] == '-' && s[1..] == t;
  }

  /** Reading back what `Show` wrote gives the number again, whatever non-digit text follows. */
  lemma ReadShow(n: int, rest: string)
    requires rest == [] || !IsDigit(rest[0])
    ensures ReadInt(Show(n) + rest) == Some(n)
  {
    if n < 0 {
      var d := Digits(-n);
      ReadDigits(d, rest);
      assert Show(n) + rest == "-" + (d + rest);
      ReadNegative(d + rest);
      DigitsValueOfDigits(-n);
    } else {
      ReadDigits(Digits(n), rest);
      DigitsValueOfDigits(n);
    }
  }
}
