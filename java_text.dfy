/**
 * The few pieces of java.lang text handling the module relies on:
 * Integer.toString, Integer.parseInt and String.contains.
 */
module JavaText {
  import opened Common

  const IntMin: int := -0x8000_0000
  const IntMax: int := 0x7fff_ffff

  predicate IsAsciiDigit(c: char) {
    '0' <= c <= '9'
  }

  predicate AllAsciiDigits(s: string) {
    forall i :: 0 <= i < |s| ==> IsAsciiDigit(s[i])
  }

  function DigitChar(d: int): (c: char)
    requires 0 <= d <= 9
    ensures IsAsciiDigit(c)
  {
    ('0' as int + d) as char
  }

  function DigitValue(c: char): (d: int)
    requires IsAsciiDigit(c)
    ensures 0 <= d <= 9
  {
    c as int - '0' as int
  }

  /** The decimal digits of `n`, most significant first, without leading zeros. */
  function Digits(n: nat): (s: string)
    ensures |s| >= 1 && AllAsciiDigits(s)
    ensures n >= 10 ==> |s| >= 2
    ensures s[0] == '0' <==> n == 0
  {
    if n < 10 then [DigitChar(n)] else Digits(n / 10) + [DigitChar(n % 10)]
  }

  /** Integer.toString: a minus sign for negative values, then the digits. */
  function IntegerToString(n: int): string {
    if n < 0 then "-" + Digits(-n) else Digits(n)
  }

  /** The value of a string of decimal digits, read left to right. */
  function DigitsValue(s: string): nat
    requires AllAsciiDigits(s)
  {
    if s == [] then 0 else DigitsValue(s[..|s| - 1]) * 10 + DigitValue(s[|s| - 1])
  }

  predicate IsSign(c: char) {
    c == '-' || c == '+'
  }

  /** The text parseInt accepts before its range test: an optional sign, then one digit or more. */
  predicate SignedDigits(s: string) {
    |s| >= 1 &&
    if IsSign(s[0]) then |s| >= 2 && AllAsciiDigits(s[1..]) else AllAsciiDigits(s)
  }

  /** The value such a text denotes, whatever its size. */
  function SignedValue(s: string): int
    requires SignedDigits(s)
  {
    if s[0] == '-' then -(DigitsValue(s[1..]) as int)
    else if s[0] == '+' then DigitsValue(s[1..])
    else DigitsValue(s)
  }

  /**
   * Integer.parseInt in radix 10: an optional sign, at least one digit, and a
   * value within 32 bits; anything else is a NumberFormatException (`None`).
   */
  function ParseInt(s: string): (r: Option<int>)
    ensures r.Some? <==> SignedDigits(s) && IntMin <= SignedValue(s) <= IntMax
    ensures r.Some? ==> r.value == SignedValue(s)
  {
    if |s| == 0 then None
    else if s[0] == '-' || s[0] == '+' then
      if |s| == 1 || !AllAsciiDigits(s[1..]) then None
      else
        var v: int := if s[0] == '-' then -(DigitsValue(s[1..]) as int) else DigitsValue(s[1..]) as int;
        if IntMin <= v <= IntMax then Some(v) else None
    else if AllAsciiDigits(s) then
      var v := DigitsValue(s);
      assert s[1..] == s[1..|s|];
      if v <= IntMax then Some(v) else None
    else None
  }

  /** A few texts and what parseInt makes of them. */
  lemma ParseIntExamples()
    ensures ParseInt("+07") == Some(7)
    ensures ParseInt("-0") == Some(0)
    ensures ParseInt("") == None
    ensures ParseInt("-") == None
    ensures ParseInt("1 ") == None
  {
    assert "+07"[1..] == "07" && "07"[..1] == "0" && "0"[..0] == "";
    assert DigitsValue("07") == 7;
    assert !IsAsciiDigit("1 "[1]);
  }

  lemma {:induction false} DigitsValueOfDigits(n: nat)
    ensures DigitsValue(Digits(n)) == n
  {
    if n >= 10 {
      var s := Digits(n);
      assert s[..|s| - 1] == Digits(n / 10);
      DigitsValueOfDigits(n / 10);
    }
  }

  /** Printing a 32-bit integer and parsing it back gives the integer. */
  lemma ParseIntOfIntegerToString(n: int)
    requires IntMin <= n <= IntMax
    ensures ParseInt(IntegerToString(n)) == Some(n)
  {
    var s := IntegerToString(n);
    if n < 0 {
      var d := Digits(-n);
      assert s[0] == '-' && s[1..] == d;
      DigitsValueOfDigits(-n);
    } else {
      assert IsAsciiDigit(s[0]);
      DigitsValueOfDigits(n);
    }
  }

  /** The shape of the decimal text of small numbers. */
  lemma DigitsOfSmall(n: nat)
    ensures n < 10 ==> Digits(n) == [DigitChar(n)]
    ensures 10 <= n < 100 ==> Digits(n) == [DigitChar(n / 10), DigitChar(n % 10)]
    ensures 100 <= n < 1000 ==>
      Digits(n) == [DigitChar(n / 100), DigitChar(n / 10 % 10), DigitChar(n % 10)]
    ensures n >= 1000 ==> |Digits(n)| >= 4
  {
    if n >= 1000 {
      assert |Digits(n / 10)| >= 3 by { DigitsOfSmall(n / 10); }
    }
  }

  /** String.contains: `sub` occurs in `s` at some position. */
  predicate Contains(s: string, sub: string) {
    |sub| <= |s| && (s[..|sub|] == sub || (|s| > 0 && Contains(s[1..], sub)))
  }
}
