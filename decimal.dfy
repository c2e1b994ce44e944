/**
 * Decimal numerals as Python's string formatting writes them: `str(n)` for a
 * natural number, two-digit fractions, and the `,` thousands separator of the
 * `,` format option.
 */
module Decimal {

  predicate IsDigit(c: char) {
    '0' <= c <= '9'
  }

  predicate AllDigits(s: string) {
    forall i | 0 <= i < |s| :: IsDigit(s[i])
  }

  function DigitValue(c: char): (d: nat)
    requires IsDigit(c)
    ensures d < 10
  {
    c as int - '0' as int
  }

  function DigitChar(d: nat): (c: char)
    requires d < 10
    ensures IsDigit(c) && DigitValue(c) == d
  {
    ('0' as int + d) as char
  }

  /** The value of a string of digits, most significant first. */
  function ValueOf(s: string): nat
    requires AllDigits(s)
  {
    if s == [] then 0 else 10 * ValueOf(s[..|s| - 1]) + DigitValue(s[|s| - 1])
  }

  /** The numeral of `n` without leading zeros, as `str(n)` writes it. */
  function Digits(n: nat): (s: string)
    ensures 1 <= |s| && AllDigits(s)
    ensures s[0] == '0' ==> n == 0 && s == "0"
    ensures n < 100 ==> |s| <= 2
    ensures n < 1000 ==> |s| <= 3
  {
    if n < 10 then [DigitChar(n)] else Digits(n / 10) + [DigitChar(n % 10)]
  }

  lemma {:induction false} DigitsRoundTrip(n: nat)
    ensures ValueOf(Digits(n)) == n
  {
    if n >= 10 {
      var s := Digits(n);
      assert s[..|s| - 1] == Digits(n / 10);
      DigitsRoundTrip(n / 10);
    }
  }

  /** Exactly two digits, with a leading zero below ten: the `.2f` fraction. */
  function TwoDigits(n: nat): (s: string)
    requires n < 100
    ensures |s| == 2 && AllDigits(s) && ValueOf(s) == n
  {
    var s := [DigitChar(n / 10), DigitChar(n % 10)];
    assert ValueOf(s[..1]) == n / 10 by {
      assert s[..1][..0] == [];
    }
    s
  }

  /** Exactly three digits, with leading zeros: one group after a separator. */
  function ThreeDigits(n: nat): (s: string)
    requires n < 1000
    ensures |s| == 3 && AllDigits(s) && ValueOf(s) == n
  {
    var s := [DigitChar(n / 100), DigitChar(n / 10 % 10), DigitChar(n % 10)];
    assert ValueOf(s[..2]) == n / 10 by {
      assert s[..2] == TwoDigits(n / 10);
    }
    s
  }

  /**
   * A numeral with thousands separators: a leading group of one to three
   * digits, then groups of exactly three digits each preceded by a comma.
   */
  predicate WellGrouped(s: string)
    decreases |s|
  {
    || (1 <= |s| <= 3 && AllDigits(s))
    || (|s| >= 5 && s[|s| - 4] == ',' && AllDigits(s[|s| - 3..]) && WellGrouped(s[..|s| - 4]))
  }

  /** The value of a well-grouped numeral, read group by group. */
  function GroupedValue(s: string): nat
    requires WellGrouped(s)
    decreases |s|
  {
    if |s| <= 3 then ValueOf(s) else 1000 * GroupedValue(s[..|s| - 4]) + ValueOf(s[|s| - 3..])
  }

  /** `n` written with the `,` format option: digits grouped by three from the right. */
  function Grouped(n: nat): (s: string)
    ensures WellGrouped(s)
    ensures IsDigit(s[0]) && (s[0] == '0' ==> n == 0 && s == "0")
  {
    if n < 1000 then Digits(n)
    else
      var head := Grouped(n / 1000);
      var s := head + "," + ThreeDigits(n % 1000);
      assert s[..|s| - 4] == head;
      assert s[|s| - 3..] == ThreeDigits(n % 1000);
      s
  }

  lemma {:induction false} GroupedRoundTrip(n: nat)
    ensures GroupedValue(Grouped(n)) == n
  {
    if n < 1000 {
      DigitsRoundTrip(n);
    } else {
      var s := Grouped(n);
      assert s[..|s| - 4] == Grouped(n / 1000);
      assert s[|s| - 3..] == ThreeDigits(n % 1000);
      GroupedRoundTrip(n / 1000);
    }
  }
}
