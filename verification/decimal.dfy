/** Decimal rendering of natural numbers, as JavaScript does when a number is
interpolated into a template string or concatenated with a string
(`$${idx + 1}`, `"$" + (values.length + 1)`), together with the parser that
inverts it. */
module Decimal {

  predicate IsDigit(c: char) {
    '0' <= c <= '9'
  }

  predicate AllDigits(s: string) {
    forall i :: 0 <= i < |s| ==> IsDigit(s[i])
  }

  function DigitValue(c: char): (d: nat)
    requires IsDigit(c)
    ensures d < 10
  {
    (c as int - '0' as int) as nat
  }

  function DigitChar(d: nat): (c: char)
    requires d < 10
    ensures IsDigit(c) && DigitValue(c) == d
  {
    (d + '0' as int) as char
  }

  /** The shortest decimal numeral of `n`: never empty, only digits, and no
      leading zero except for `0` itself. */
  function NatToString(n: nat): (s: string)
    ensures |s| >= 1
    ensures AllDigits(s)
    ensures s[0] == '0' ==> n == 0
    ensures n < 10 <==> |s| == 1
    decreases n
  {
    if n < 10 then [DigitChar(n)] else NatToString(n / 10) + [DigitChar(n % 10)]
  }

  /** The value of a numeral, most significant digit first. */
  function ParseDigits(s: string): nat
    requires AllDigits(s)
    decreases |s|
  {
    if |s| == 0 then 0 else 10 * ParseDigits(s[..|s| - 1]) + DigitValue(s[|s| - 1])
  }

  /** Parsing a rendered number gives the number back. */
  lemma {:induction false} ParseNatToString(n: nat)
    ensures ParseDigits(NatToString(n)) == n
    decreases n
  {
    var s := NatToString(n);
    if n >= 10 {
      ParseNatToString(n / 10);
      assert s[..|s| - 1] == NatToString(n / 10);
    }
  }

  /** A numeral with no leading zero (other than `0` itself) is the rendering
      of its own value: `NatToString` produces every canonical numeral. */
  lemma {:induction false} NatToStringParse(d: string)
    requires |d| >= 1 && AllDigits(d) && (|d| > 1 ==> d[0] != '0')
    ensures NatToString(ParseDigits(d)) == d
    decreases |d|
  {
    if |d| == 1 {
      assert d[..0] == [];
      assert DigitChar(DigitValue(d[0])) == d[0];
    } else {
      var p := d[..|d| - 1];
      var b := DigitValue(d[|d| - 1]);
      NatToStringParse(p);
      ParseDigitsPositive(p);
      var n := ParseDigits(d);
      assert n == 10 * ParseDigits(p) + b;
      assert n / 10 == ParseDigits(p) && n % 10 == b;
      assert DigitChar(b) == d[|d| - 1];
      assert d == p + [d[|d| - 1]];
    }
  }

  /** A numeral that does not start with `0` has a positive value. */
  lemma {:induction false} ParseDigitsPositive(d: string)
    requires |d| >= 1 && AllDigits(d) && d[0] != '0'
    ensures ParseDigits(d) >= 1
    decreases |d|
  {
    if |d| > 1 {
      ParseDigitsPositive(d[..|d| - 1]);
    } else {
      assert d[..0] == [];
    }
  }

  /** Distinct numbers render to distinct numerals. */
  lemma NatToStringInjective(m: nat, n: nat)
    requires m != n
    ensures NatToString(m) != NatToString(n)
  {
    ParseNatToString(m);
    ParseNatToString(n);
  }
}
