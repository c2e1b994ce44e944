/**
 * The report's money formatter `fmt_money`: `"$"` followed by the amount with
 * a comma thousands separator and exactly two decimals, or, when the value
 * cannot be converted to a number, the value's own string form.
 */
module Money {
  import opened Wrappers
  import opened Decimal

  /**
   * A value handed to `fmt_money`. `Number` stands for any value that
   * `float()` accepts, in whole cents; `Unconvertible` for one it rejects with
   * ValueError or TypeError, carrying what `str()` makes of it.
   */
  datatype Amount = Number(cents: int) | Unconvertible(text: string)

  /** The magnitude of an amount. */
  function Abs(c: int): nat {
    if c < 0 then -c else c
  }

  /**
   * The shape in which `f"${x:,.2f}"` writes an amount of `c` cents: `"$"`,
   * `"-"` exactly for a negative amount, a well-grouped integer part that
   * starts with a digit and is `"0"` when it starts with a zero, `"."`, and
   * two decimals.
   */
  predicate WrittenAmount(s: string, c: int) {
    && |s| >= 5 && s[0] == '$' && s[|s| - 3] == '.' && AllDigits(s[|s| - 2..])
    && (c < 0 ==> s[1] == '-')
    && var start := if c < 0 then 2 else 1;
       && start < |s| - 3
       && IsDigit(s[start])
       && WellGrouped(s[start..|s| - 3])
       && (s[start] == '0' ==> s[start..|s| - 3] == "0" && Abs(c) < 100)
  }

  /** `f"${c / 100:,.2f}"` for an amount `c` in cents. */
  function FormatCents(c: int): (s: string)
    ensures WrittenAmount(s, c)
  {
    var whole, cents := IntegerPart(c), TwoDigits(Abs(c) % 100);
    AmountSlices(whole, cents);
    "$" + whole + "." + cents
  }

  /** Where the parts of `"$" + whole + "." + cents` sit. */
  lemma AmountSlices(whole: string, cents: string)
    requires |whole| >= 1 && |cents| == 2
    ensures var s := "$" + whole + "." + cents;
      && |s| == |whole| + 4 && s[0] == '$' && s[|s| - 3] == '.'
      && s[1..|s| - 3] == whole && s[2..|s| - 3] == whole[1..] && s[|s| - 2..] == cents
  {
  }

  /** What the format writes before the decimal point: the sign and the grouped whole units. */
  function IntegerPart(c: int): (s: string)
    ensures c < 0 ==> |s| >= 2 && s[0] == '-' && DigitsPart(s[1..], c)
    ensures c >= 0 ==> |s| >= 1 && DigitsPart(s, c)
  {
    var g := Grouped(Abs(c) / 100);
    if c < 0 then
      assert ("-" + g)[1..] == g;
      "-" + g
    else g
  }

  /** The unsigned integer part: grouped, and `"0"` exactly below one unit. */
  predicate DigitsPart(g: string, c: int) {
    |g| >= 1 && IsDigit(g[0]) && WellGrouped(g) && (g[0] == '0' ==> g == "0" && Abs(c) < 100)
  }

  /**
   * Reads back a formatted amount: `"$"`, an optional `"-"`, a well-grouped
   * integer part, `"."` and two digits.
   */
  function ParseMoney(s: string): Option<int> {
    if |s| < 5 || s[0] != '$' || s[|s| - 3] != '.' || !AllDigits(s[|s| - 2..]) then None
    else ParseSigned(s[1..|s| - 3], ValueOf(s[|s| - 2..]))
  }

  /** An optionally negated, well-grouped integer part followed by `cents` hundredths. */
  function ParseSigned(body: string, cents: nat): Option<int> {
    if |body| > 0 && body[0] == '-' then
      match ParseUnsigned(body[1..], cents)
      case Some(a) => Some(-a)
      case None => None
    else ParseUnsigned(body, cents)
  }

  /** A well-grouped integer part followed by `cents` hundredths. */
  function ParseUnsigned(whole: string, cents: nat): Option<int> {
    if WellGrouped(whole) then Some(100 * GroupedValue(whole) + cents) else None
  }

  /** An integer part that starts with a digit reads as unsigned. */
  lemma ParseSignedPositive(whole: string, cents: nat)
    requires |whole| > 0 && IsDigit(whole[0])
    ensures ParseSigned(whole, cents) == ParseUnsigned(whole, cents)
  {
  }

  /** An integer part behind `"-"` reads as the negation of the unsigned reading. */
  lemma ParseSignedNegative(whole: string, cents: nat)
    requires ParseUnsigned(whole, cents).Some?
    ensures ParseSigned("-" + whole, cents) == Some(-ParseUnsigned(whole, cents).value)
  {
    assert ("-" + whole)[1..] == whole;
  }

  /** `ParseMoney` splits off the `"$"`, the decimal point and the two decimals. */
  lemma ParseMoneySplits(body: string, cents: string)
    requires |body| >= 1 && |cents| == 2 && AllDigits(cents)
    ensures ParseMoney("$" + body + "." + cents) == ParseSigned(body, ValueOf(cents))
  {
    var s := "$" + body + "." + cents;
    assert s[|s| - 2..] == cents;
    assert s[1..|s| - 3] == body;
  }

  /** Parsing a formatted amount comes down to parsing its integer part. */
  lemma FormatCentsSplits(c: int)
    ensures ParseMoney(FormatCents(c)) == ParseSigned(IntegerPart(c), Abs(c) % 100)
  {
    var cents := TwoDigits(Abs(c) % 100);
    assert FormatCents(c) == "$" + IntegerPart(c) + "." + cents;
    ParseMoneySplits(IntegerPart(c), cents);
  }

  /** Whole units and hundredths of a magnitude read back as that magnitude. */
  lemma UnsignedRoundTrip(n: nat)
    ensures ParseUnsigned(Grouped(n / 100), n % 100) == Some(n)
  {
    GroupedRoundTrip(n / 100);
  }

  /** The integer part, with the hundredths, reads back as the amount. */
  lemma IntegerPartRoundTrip(c: int)
    ensures ParseSigned(IntegerPart(c), Abs(c) % 100) == Some(c)
  {
    var n := Abs(c);
    var whole := Grouped(n / 100);
    UnsignedRoundTrip(n);
    if c < 0 {
      ParseSignedNegative(whole, n % 100);
    } else {
      ParseSignedPositive(whole, n % 100);
    }
  }

  lemma FormatCentsRoundTrip(c: int)
    ensures ParseMoney(FormatCents(c)) == Some(c)
  {
    FormatCentsSplits(c);
    IntegerPartRoundTrip(c);
  }

  /** `fmt_money(x)` (shopify_report_main.py and the later definition in vivenu_report_main.py). */
  function FmtMoney(x: Amount): (s: string)
    ensures x.Unconvertible? ==> s == x.text
    ensures x.Number? ==> WrittenAmount(s, x.cents) && ParseMoney(s) == Some(x.cents)
  {
    match x
    case Number(c) => FormatCentsRoundTrip(c); FormatCents(c)
    case Unconvertible(t) => t
  }

  /** The whole units 1234 are written "1,234". */
  lemma GroupedExample()
    ensures Grouped(1234) == "1,234"
  {
    assert Grouped(1) == "1" by {
      assert DigitChar(1) == '1';
    }
    assert ThreeDigits(234) == "234" by {
      assert DigitChar(2) == '2';
      assert DigitChar(3) == '3';
      assert DigitChar(4) == '4';
    }
  }

  /** The amount 1234.50 is formatted as "$1,234.50". */
  lemma FormatCentsExample()
    ensures FormatCents(123450) == "$1,234.50"
  {
    assert IntegerPart(123450) == "1,234" by {
      GroupedExample();
    }
    assert TwoDigits(50) == "50" by {
      assert DigitChar(5) == '5';
      assert DigitChar(0) == '0';
    }
    assert FormatCents(123450) == "$" + "1,234" + "." + "50";
  }

  /** The amount 1234.50 is written "$1,234.50"; a string such as "bad" comes back unchanged. */
  lemma FmtMoneyExamples()
    ensures FmtMoney(Number(123450)) == "$1,234.50"
    ensures FmtMoney(Unconvertible("bad")) == "bad"
  {
    FormatCentsExample();
  }
}
