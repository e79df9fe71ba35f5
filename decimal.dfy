/** Decimal rendering of integers, as a JavaScript template literal `${d}`
    renders a small integer-valued number, together with the parser that
    inverts it. The parser accepts exactly the rendered texts: no leading
    zero, no "-0", no sign without digits. */
module Decimal {

  import opened Options

  predicate IsDigit(c: char) {
    '0' <= c <= '9'
  }

  predicate AllDigits(s: string) {
    forall i :: 0 <= i < |s| ==> IsDigit(s[i])
  }

  function DigitChar(d: nat): (c: char)
    requires d < 10
    ensures IsDigit(c)
  {
    (('0' as int) + d) as char
  }

  function DigitValue(c: char): (d: nat)
    requires IsDigit(c)
    ensures d < 10
  {
    (c as int) - ('0' as int)
  }

  /** Digits of n, most significant first, with no leading zero. */
  function NatToDecimal(n: nat): string
    decreases n
  {
    if n < 10 then [DigitChar(n)] else NatToDecimal(n / 10) + [DigitChar(n % 10)]
  }

  /** `${n}` for an integer-valued JavaScript number below 10^21 in
      magnitude (larger ones are written in exponent form; see README). */
  function IntToDecimal(n: int): string {
    if n < 0 then "-" + NatToDecimal(-n) else NatToDecimal(n)
  }

  /** The value of a string of decimal digits, most significant first. */
  function DigitsValue(s: string): nat
    requires AllDigits(s)
    decreases |s|
  {
    if |s| == 0 then 0 else DigitsValue(s[..|s| - 1]) * 10 + DigitValue(s[|s| - 1])
  }

  /** At least one digit, and no leading zero unless the text is "0". */
  predicate Canonical(s: string) {
    |s| > 0 && AllDigits(s) && (s[0] == '0' ==> |s| == 1)
  }

  /** Reads back a canonical digit string, optionally after a minus sign;
      "-0" is rejected, as no integer renders to it. */
  function ParseDecimal(s: string): Option<int> {
    if |s| > 1 && s[0] == '-' && Canonical(s[1..]) && s[1..] != "0" then Some(-(DigitsValue(s[1..]) as int))
    else if Canonical(s) then Some(DigitsValue(s))
    else None
  }

  /** The digits of n are canonical, begin with a non-zero digit when n is
      positive, and have the value n. */
  lemma {:induction false} NatToDecimalDigits(n: nat)
    ensures Canonical(NatToDecimal(n))
    ensures n > 0 ==> NatToDecimal(n)[0] != '0'
    ensures DigitsValue(NatToDecimal(n)) == n
    decreases n
  {
    if n >= 10 {
      NatToDecimalDigits(n / 10);
      var s := NatToDecimal(n / 10) + [DigitChar(n % 10)];
      assert s[..|s| - 1] == NatToDecimal(n / 10);
      assert DigitValue(s[|s| - 1]) == n % 10;
      assert s[0] == NatToDecimal(n / 10)[0];
    }
  }

  /** A digit string that does not start with '0' has a positive value. */
  lemma {:induction false} LeadingDigitPositive(s: string)
    requires |s| > 0 && AllDigits(s) && s[0] != '0'
    ensures DigitsValue(s) > 0
    decreases |s|
  {
    if |s| > 1 {
      LeadingDigitPositive(s[..|s| - 1]);
    }
  }

  /** A canonical digit string is the rendering of its own value. */
  lemma {:induction false} CanonicalIsRendered(s: string)
    requires Canonical(s)
    ensures NatToDecimal(DigitsValue(s)) == s
    decreases |s|
  {
    var last := s[|s| - 1];
    var d := DigitValue(last);
    assert DigitChar(d) == last;
    if |s| > 1 {
      var p := s[..|s| - 1];
      assert p[0] == s[0];
      LeadingDigitPositive(p);
      CanonicalIsRendered(p);
      var v := DigitsValue(s);
      assert v == DigitsValue(p) * 10 + d;
      assert v / 10 == DigitsValue(p) && v % 10 == d;
      assert s == p + [last];
    }
  }

  /** Parsing is the exact inverse of rendering: a text parses to n exactly
      when it is the rendering of n. */
  lemma ParseIsInverse(s: string, n: int)
    ensures ParseDecimal(s) == Some(n) <==> s == IntToDecimal(n)
  {
    if s == IntToDecimal(n) {
      ParseRendered(n);
    }
    if ParseDecimal(s) == Some(n) {
      if |s| > 1 && s[0] == '-' && Canonical(s[1..]) && s[1..] != "0" {
        var t := s[1..];
        assert t[0] != '0';
        LeadingDigitPositive(t);
        CanonicalIsRendered(t);
        assert s == "-" + t;
      } else {
        CanonicalIsRendered(s);
      }
    }
  }

  /** Rendering then parsing gives back the integer. */
  lemma ParseRendered(n: int)
    ensures ParseDecimal(IntToDecimal(n)) == Some(n)
  {
    if n < 0 {
      NatToDecimalDigits(-n);
      var s := "-" + NatToDecimal(-n);
      assert s[1..] == NatToDecimal(-n);
      assert s[1..][0] != '0';
      assert !IsDigit(s[0]);
    } else {
      NatToDecimalDigits(n);
      assert NatToDecimal(n)[0] != '-';
    }
  }

  /** Distinct integers render to distinct texts. */
  lemma RenderingInjective(m: int, n: int)
    ensures IntToDecimal(m) == IntToDecimal(n) <==> m == n
  {
    ParseRendered(m);
    ParseRendered(n);
  }
}
