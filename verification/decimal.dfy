/**
 Decimal text for C++ `int` values: the canonical form `QString::number` writes
 and the numerals the C locale reads back (`QLocale::c().toInt`).
 */
module Decimal {
  import opened Options

  const MinInt32: int := -0x8000_0000
  const MaxInt32: int := 0x7fff_ffff

  /** The values of a 32-bit C++ `int`. */
  type Int32 = x: int | MinInt32 <= x <= MaxInt32

  predicate IsDigit(c: char) {
    '0' <= c <= '9'
  }

  predicate AllDigits(s: string) {
    forall k :: 0 <= k < |s| ==> IsDigit(s[k])
  }

  /** A numeral the reader accepts: an optional minus sign followed by at least one digit. */
  predicate IsNumeral(s: string) {
    || (1 <= |s| && AllDigits(s))
    || (2 <= |s| && s[0] == '-' && AllDigits(s[1..]))
  }

  function DigitChar(d: nat): (c: char)
    requires d < 10
    ensures IsDigit(c) && c as int - '0' as int == d
  {
    ('0' as int + d) as char
  }

  /** Digits of `n`, most significant first, without leading zeros. */
  function FormatNat(n: nat): (s: string)
    ensures 1 <= |s| && AllDigits(s)
    ensures s[0] == '0' ==> n == 0 && |s| == 1
  {
    if n < 10 then [DigitChar(n)] else FormatNat(n / 10) + [DigitChar(n % 10)]
  }

  /** The value of a string of digits (leading zeros allowed). */
  function ParseDigits(s: string): nat
    requires AllDigits(s)
  {
    if s == [] then 0 else ParseDigits(s[..|s| - 1]) * 10 + (s[|s| - 1] as int - '0' as int)
  }

  /** `QString::number(i)`: a minus sign for negative values, then the digits of |i|. */
  function FormatInt(i: int): (s: string)
    ensures IsNumeral(s)
    ensures s != ""
  {
    if i < 0 then "-" + FormatNat(-i) else FormatNat(i)
  }

  /** The integer a numeral denotes, or None for text that is not a numeral. */
  function ParseInt(s: string): (r: Option<int>)
    ensures r.Some? <==> IsNumeral(s)
    ensures r.Some? && s[0] == '-' ==> r.value <= 0
    ensures r.Some? && s[0] != '-' ==> r.value >= 0
  {
    if 2 <= |s| && s[0] == '-' && AllDigits(s[1..]) then Some(0 - ParseDigits(s[1..]) as int)
    else if 1 <= |s| && AllDigits(s) then Some(ParseDigits(s))
    else None
  }

  /** `QLocale::c().toInt(s)` on decimal text: the numeral's value when it fits an
      `int`, and 0 for text that is no numeral or a numeral out of range. */
  function TextToInt32(s: string): (r: Int32)
    ensures ParseInt(s).Some? && MinInt32 <= ParseInt(s).value <= MaxInt32 ==> r == ParseInt(s).value
    ensures ParseInt(s).Some? && !(MinInt32 <= ParseInt(s).value <= MaxInt32) ==> r == 0
    ensures ParseInt(s).None? ==> r == 0
  {
    match ParseInt(s)
    case Some(v) => if MinInt32 <= v <= MaxInt32 then v else 0
    case None => 0
  }

  /** Reading back the digits of `n` gives `n`. */
  lemma {:induction false} ParseFormatNat(n: nat)
    ensures ParseDigits(FormatNat(n)) == n
  {
    if n >= 10 {
      var s := FormatNat(n);
      var front := FormatNat(n / 10);
      assert s == front + [DigitChar(n % 10)];
      assert s[..|s| - 1] == front;
      ParseFormatNat(n / 10);
    }
  }

  /** Every integer survives a trip through its decimal text. */
  lemma ParseFormatInt(i: int)
    ensures ParseInt(FormatInt(i)) == Some(i)
  {
    var s := FormatInt(i);
    if i < 0 {
      assert s[1..] == FormatNat(-i);
      ParseFormatNat(-i);
    } else {
      assert s[0] != '-';
      ParseFormatNat(i);
    }
  }

  /** Every `int` survives a trip through `QString::number` and `QLocale::toInt`. */
  lemma Int32TextRoundTrip(i: Int32)
    ensures TextToInt32(FormatInt(i)) == i
  {
    ParseFormatInt(i);
  }
}
