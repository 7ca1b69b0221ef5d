/**
 * The `{order_amount:.2f}` rendering used in the order summary, for an amount
 * held as a whole number of cents: an optional '-', the integer part without
 * leading zeros, a '.', and exactly two digits.
 *
 * `ParseCents` reads such a text back; the two round-trip lemmas show that
 * the rendering loses nothing and that every text the parser accepts is the
 * rendering of exactly one amount.
 */
module Money {
  import opened Wrappers

  predicate IsDigit(c: char) { '0' <= c <= '9' }

  predicate AllDigits(s: string) { forall i :: 0 <= i < |s| ==> IsDigit(s[i]) }

  /** A non-empty decimal numeral without leading zeros, as `str(n)` writes it. */
  predicate Canonical(s: string) { |s| >= 1 && AllDigits(s) && (s[0] == '0' ==> |s| == 1) }

  function DigitChar(d: nat): (c: char)
    requires d < 10
    ensures IsDigit(c)
  {
    ('0' as int + d) as char
  }

  function DigitValue(c: char): (d: nat)
    requires IsDigit(c)
    ensures d < 10 && DigitChar(d) == c
  {
    c as int - '0' as int
  }

  function Abs(x: int): nat { if x < 0 then -x else x }

  /** The decimal numeral of `n`; it starts with '0' only when `n` is zero. */
  function NatToDecimal(n: nat): (s: string)
    ensures Canonical(s)
    ensures s[0] == '0' <==> n == 0
    decreases n
  {
    if n < 10 then [DigitChar(n)] else NatToDecimal(n / 10) + [DigitChar(n % 10)]
  }

  /** The value of a string of digits, most significant first. */
  function DecimalValue(s: string): nat
    requires AllDigits(s)
    decreases |s|
  {
    if s == [] then 0 else 10 * DecimalValue(s[..|s| - 1]) + DigitValue(s[|s| - 1])
  }

  lemma {:induction false} DecimalValueOfNatToDecimal(n: nat)
    ensures DecimalValue(NatToDecimal(n)) == n
    decreases n
  {
    var s := NatToDecimal(n);
    if n < 10 {
      assert s[..|s| - 1] == [];
    } else {
      DecimalValueOfNatToDecimal(n / 10);
      assert s[..|s| - 1] == NatToDecimal(n / 10);
    }
  }

  lemma {:induction false} LeadingNonZeroIsPositive(s: string)
    requires |s| >= 1 && AllDigits(s) && s[0] != '0'
    ensures DecimalValue(s) >= 1
    decreases |s|
  {
    if |s| > 1 {
      LeadingNonZeroIsPositive(s[..|s| - 1]);
    }
  }

  lemma {:induction false} NatToDecimalOfDecimalValue(s: string)
    requires Canonical(s)
    ensures NatToDecimal(DecimalValue(s)) == s
    decreases |s|
  {
    if |s| == 1 {
      assert s[..0] == [];
      assert DecimalValue(s) == DigitValue(s[0]);
    } else {
      var p := s[..|s| - 1];
      assert p[0] == s[0];
      NatToDecimalOfDecimalValue(p);
      LeadingNonZeroIsPositive(p);
      var v := DecimalValue(s);
      assert v / 10 == DecimalValue(p) && v % 10 == DigitValue(s[|s| - 1]);
      assert s == p + [s[|s| - 1]];
    }
  }

  /** Two digits for a value below one hundred. */
  function TwoDigits(k: nat): string
    requires k < 100
  {
    [DigitChar(k / 10), DigitChar(k % 10)]
  }

  /** The `.2f` text of `cents / 100`. */
  function FormatCents(cents: int): (s: string)
    ensures |s| >= 4 && s[|s| - 3] == '.' && IsDigit(s[|s| - 2]) && IsDigit(s[|s| - 1])
    ensures s[0] == '-' <==> cents < 0
    ensures forall i :: 0 <= i < |s| ==> s[i] == '-' || s[i] == '.' || IsDigit(s[i])
  {
    var a := Abs(cents);
    (if cents < 0 then "-" else "") + NatToDecimal(a / 100) + "." + TwoDigits(a % 100)
  }

  /** Reads back a text of the form FormatCents writes; anything else is None. */
  function ParseCents(s: string): Option<int> {
    if |s| < 4 || s[|s| - 3] != '.' || !IsDigit(s[|s| - 2]) || !IsDigit(s[|s| - 1]) then None
    else
      var start := if s[0] == '-' then 1 else 0;
      SignedCents(start == 1, s[start..|s| - 3], s[|s| - 2], s[|s| - 1])
  }

  /** The amount for a sign, whole-unit digits and two decimal digits; "-0.00" is refused. */
  function SignedCents(negative: bool, whole: string, d1: char, d2: char): Option<int>
    requires IsDigit(d1) && IsDigit(d2)
  {
    if !Canonical(whole) then None
    else
      var a := DecimalValue(whole) * 100 + DigitValue(d1) * 10 + DigitValue(d2);
      if !negative then Some(a)
      else if a == 0 then None
      else Some(-a)
  }

  /** Reading a text assembled from a sign, whole-unit digits and two decimal digits. */
  lemma ParseFromParts(sign: string, whole: string, d1: char, d2: char)
    requires Canonical(whole) && IsDigit(d1) && IsDigit(d2)
    requires sign == "" || sign == "-"
    ensures ParseCents(sign + whole + "." + [d1, d2]) == SignedCents(sign == "-", whole, d1, d2)
  {
    var s := sign + whole + "." + [d1, d2];
    assert s[0] == (if sign == "-" then '-' else whole[0]);
    assert s[|sign|..|s| - 3] == whole;
  }

  /** The two-decimal text of an amount determines the amount. */
  lemma ParseFormatCents(cents: int)
    ensures ParseCents(FormatCents(cents)) == Some(cents)
  {
    var a := Abs(cents);
    var w := NatToDecimal(a / 100);
    var d1, d2 := DigitChar(a % 100 / 10), DigitChar(a % 100 % 10);
    ValueOfParts(a);
    var sign := if cents < 0 then "-" else "";
    assert FormatCents(cents) == sign + w + "." + [d1, d2];
    assert SignedCents(sign == "-", w, d1, d2) == Some(cents);
    ParseFromParts(sign, w, d1, d2);
  }

  /** The digits FormatCents writes for an amount add back up to it. */
  lemma ValueOfParts(a: nat)
    ensures DecimalValue(NatToDecimal(a / 100)) * 100
          + DigitValue(DigitChar(a % 100 / 10)) * 10 + DigitValue(DigitChar(a % 100 % 10)) == a
  {
    DecimalValueOfNatToDecimal(a / 100);
  }

  /** Splitting an amount into whole units and two decimal digits. */
  lemma CentsDigits(w: nat, d1: nat, d2: nat)
    requires d1 < 10 && d2 < 10
    ensures (w * 100 + d1 * 10 + d2) / 100 == w
    ensures (w * 100 + d1 * 10 + d2) % 100 == d1 * 10 + d2
    ensures (d1 * 10 + d2) / 10 == d1 && (d1 * 10 + d2) % 10 == d2
  {
  }

  /** The rendering of an amount given its sign, whole-unit digits and two decimal digits. */
  lemma FormatFromParts(sign: string, whole: string, d1: char, d2: char, cents: int)
    requires Canonical(whole) && IsDigit(d1) && IsDigit(d2)
    requires Abs(cents) == DecimalValue(whole) * 100 + DigitValue(d1) * 10 + DigitValue(d2)
    requires sign == if cents < 0 then "-" else ""
    ensures FormatCents(cents) == sign + whole + "." + [d1, d2]
  {
    CentsDigits(DecimalValue(whole), DigitValue(d1), DigitValue(d2));
    NatToDecimalOfDecimalValue(whole);
  }

  /** Every text the parser accepts is exactly the rendering of what it parses to. */
  lemma FormatParsedCents(s: string, cents: int)
    requires ParseCents(s) == Some(cents)
    ensures FormatCents(cents) == s
  {
    var start := if s[0] == '-' then 1 else 0;
    var whole := s[start..|s| - 3];
    var d1, d2 := s[|s| - 2], s[|s| - 1];
    assert Abs(cents) == DecimalValue(whole) * 100 + DigitValue(d1) * 10 + DigitValue(d2);
    assert s[..start] == if cents < 0 then "-" else "";
    FormatFromParts(s[..start], whole, d1, d2, cents);
    assert s == s[..start] + whole + "." + [d1, d2];
  }
}
