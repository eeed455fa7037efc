/**
 * Python's `int(digits)` and `str(n)` for non-negative integers, used for the
 * captured percentage and for every label that prints a number.
 */
module Decimal {
  import opened Text

  predicate AllDigits(s: string) {
    forall i :: 0 <= i < |s| ==> IsDigit(s[i])
  }

  function DigitValue(c: char): (d: nat)
    requires IsDigit(c)
    ensures d < 10
  {
    c as int - '0' as int
  }

  function DigitChar(d: nat): (c: char)
    requires d < 10
    ensures IsDigit(c) && DigitValue(c) == d
  {
    ('0' as int + d) as char
  }

  /** `int(s)` for a string of ASCII digits (leading zeros allowed). */
  function ParseDecimal(s: string): nat
    requires AllDigits(s)
  {
    if s == [] then 0 else 10 * ParseDecimal(s[..|s| - 1]) + DigitValue(s[|s| - 1])
  }

  /** `str(n)`: the canonical decimal numeral, with no leading zero. */
  function FormatDecimal(n: nat): (s: string)
    ensures |s| >= 1 && AllDigits(s)
    ensures s[0] == '0' ==> n == 0
  {
    if n < 10 then [DigitChar(n)] else FormatDecimal(n / 10) + [DigitChar(n % 10)]
  }

  /** Reading back a printed number gives the number. */
  lemma {:induction false} ParseFormat(n: nat)
    ensures ParseDecimal(FormatDecimal(n)) == n
  {
    var s := FormatDecimal(n);
    if n >= 10 {
      ParseFormat(n / 10);
      assert s[..|s| - 1] == FormatDecimal(n / 10);
    }
  }

  /** Canonical numerals are printed back unchanged. */
  lemma {:induction false} FormatParse(s: string)
    requires AllDigits(s) && |s| >= 1 && (s[0] == '0' ==> |s| == 1)
    ensures FormatDecimal(ParseDecimal(s)) == s
    decreases |s|
  {
    var n := ParseDecimal(s);
    var init := s[..|s| - 1];
    var d := DigitValue(s[|s| - 1]);
    if |s| > 1 {
      FormatParse(init);
      var m := ParseDecimal(init);
      assert m >= 1 by {
        if m == 0 {
          FormatZero(init);
        }
      }
      assert n == 10 * m + d;
      assert n / 10 == m && n % 10 == d;
      assert s == init + [s[|s| - 1]];
    } else {
      assert s == [s[0]];
    }
  }

  /** A numeral whose value is 0 is a run of zeros, so only "0" is canonical. */
  lemma {:induction false} FormatZero(s: string)
    requires AllDigits(s) && |s| >= 1 && ParseDecimal(s) == 0
    ensures s[0] == '0'
    decreases |s|
  {
    if |s| > 1 {
      FormatZero(s[..|s| - 1]);
      assert s[0] == s[..|s| - 1][0];
    }
  }

  /** Different numbers print differently. */
  lemma {:induction false} FormatInjective(m: nat, n: nat)
    requires FormatDecimal(m) == FormatDecimal(n)
    ensures m == n
  {
    ParseFormat(m);
    ParseFormat(n);
  }
}
