/**
 * Base-10 rendering of integers, as `strconv.FormatInt(n, 10)` produces
 * it, and a reference parser that reads such a rendering back.
 */
module Decimal {
  import opened Wire

  predicate IsDigit(c: char) {
    '0' <= c <= '9'
  }

  predicate AllDigits(s: string) {
    forall i :: 0 <= i < |s| ==> IsDigit(s[i])
  }

  function DigitChar(d: nat): (c: char)
    requires d < 10
    ensures IsDigit(c) && c as int - '0' as int == d
  {
    ('0' as int + d) as char
  }

  /** The digits of `n`, most significant first, with no leading zero. */
  function FormatNat(n: nat): (s: string)
    ensures |s| >= 1 && AllDigits(s)
    ensures s[0] == '0' ==> n == 0 && |s| == 1
    decreases n
  {
    if n < 10 then [DigitChar(n)] else FormatNat(n / 10) + [DigitChar(n % 10)]
  }

  /** `strconv.FormatInt(n, 10)`: a minus sign for negative numbers, then the digits. */
  function Format(n: int): (s: string)
    ensures |s| >= 1
    ensures n < 0 <==> s[0] == '-'
    ensures Canonical(s)
  {
    if n < 0 then "-" + FormatNat(-n) else FormatNat(n)
  }

  /** Base-10 digits with no superfluous leading zero. */
  predicate Numeral(d: string) {
    |d| >= 1 && AllDigits(d) && (d[0] == '0' ==> |d| == 1)
  }

  /** The canonical rendering of an integer: a numeral, or a minus sign and a numeral other than "0". */
  predicate Canonical(s: string) {
    Numeral(s) || (|s| >= 2 && s[0] == '-' && Numeral(s[1..]) && s[1..] != "0")
  }

  /** The number a string of digits denotes. */
  function ValueOf(s: string): nat
    requires AllDigits(s)
  {
    if s == [] then 0 else 10 * ValueOf(s[..|s| - 1]) + (s[|s| - 1] as int - '0' as int)
  }

  /** Reads an optionally signed decimal numeral; None for anything else. */
  function Parse(s: string): Option<int> {
    if |s| >= 2 && s[0] == '-' && AllDigits(s[1..]) then Some(-(ValueOf(s[1..]) as int))
    else if |s| >= 1 && AllDigits(s) then Some(ValueOf(s))
    else None
  }

  lemma {:induction false} ValueOfFormatNat(n: nat)
    ensures ValueOf(FormatNat(n)) == n
    decreases n
  {
    if n >= 10 {
      var prefix := FormatNat(n / 10);
      var s := prefix + [DigitChar(n % 10)];
      assert s[..|s| - 1] == prefix;
      ValueOfFormatNat(n / 10);
    }
  }

  /** Parsing a rendering gives back the number rendered. */
  lemma ParseFormat(n: int)
    ensures Parse(Format(n)) == Some(n)
  {
    if n < 0 {
      var digits := FormatNat(-n);
      var s := "-" + digits;
      assert s[1..] == digits;
      ValueOfFormatNat(-n);
      assert Parse(s) == Some(-(ValueOf(digits) as int));
    } else {
      var digits := FormatNat(n);
      assert IsDigit(digits[0]);
      ValueOfFormatNat(n);
    }
  }

  /** Distinct numbers have distinct renderings. */
  lemma FormatInjective(m: int, n: int)
    requires Format(m) == Format(n)
    ensures m == n
  {
    ParseFormat(m);
    ParseFormat(n);
  }

  /** A numeral that does not start with '0' denotes a positive number. */
  lemma {:induction false} LeadingDigitPositive(d: string)
    requires |d| >= 1 && AllDigits(d) && d[0] != '0'
    ensures ValueOf(d) >= 1
    decreases |d|
  {
    if |d| > 1 {
      var prefix := d[..|d| - 1];
      LeadingDigitPositive(prefix);
    }
  }

  /** A numeral is the rendering of the number it denotes. */
  lemma {:induction false} NumeralIsFormatted(d: string)
    requires Numeral(d)
    ensures FormatNat(ValueOf(d)) == d
    decreases |d|
  {
    if |d| > 1 {
      var prefix := d[..|d| - 1];
      var last := d[|d| - 1] as int - '0' as int;
      assert d[0] != '0' && prefix[0] == d[0];
      LeadingDigitPositive(prefix);
      NumeralIsFormatted(prefix);
      var n := ValueOf(d);
      assert n == 10 * ValueOf(prefix) + last && 0 <= last < 10;
      assert n / 10 == ValueOf(prefix) && n % 10 == last;
      assert d == prefix + [DigitChar(last)];
    }
  }

  /** Every canonical rendering parses, and is the rendering of the number it parses to. */
  lemma CanonicalIsFormatted(s: string)
    requires Canonical(s)
    ensures Parse(s).Some? && Format(Parse(s).value) == s
  {
    if Numeral(s) {
      NumeralIsFormatted(s);
    } else {
      var d := s[1..];
      NumeralIsFormatted(d);
      LeadingDigitPositive(d);
      assert s == "-" + d;
    }
  }
}
