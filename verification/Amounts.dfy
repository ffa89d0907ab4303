/** Amounts of money as the services hold them: decimal text as a numeric(12,2) column prints it,
    JavaScript numbers, and cents. */
module Amounts {
  import opened Binary64

  // ---- Decimal text with two fraction digits, as numeric(12,2) prints it

  function Digit(d: nat): char
    requires d < 10
  {
    '0' + d as char
  }

  predicate IsDigit(c: char) {
    '0' <= c <= '9'
  }

  function DigitValue(c: char): (d: nat)
    requires IsDigit(c)
    ensures d < 10
  {
    (c - '0') as int
  }

  predicate IsNumeral(s: string) {
    s != "" && forall i :: 0 <= i < |s| ==> IsDigit(s[i])
  }

  function Numeral(n: nat): string {
    if n < 10 then [Digit(n)] else Numeral(n / 10) + [Digit(n % 10)]
  }

  function NumeralValue(s: string): nat
    requires IsNumeral(s)
  {
    if |s| == 1 then DigitValue(s[0])
    else 10 * NumeralValue(s[..|s| - 1]) + DigitValue(s[|s| - 1])
  }

  lemma {:induction false} NumeralRoundTrip(n: nat)
    ensures IsNumeral(Numeral(n)) && NumeralValue(Numeral(n)) == n
  {
    if n >= 10 {
      NumeralRoundTrip(n / 10);
      assert Numeral(n)[..|Numeral(n)| - 1] == Numeral(n / 10);
    }
  }

  /** A numeral without superfluous leading zeros. */
  predicate Canonical(s: string) {
    IsNumeral(s) && (|s| > 1 ==> s[0] != '0')
  }

  lemma {:induction false} CanonicalRoundTrip(s: string)
    requires Canonical(s)
    ensures Numeral(NumeralValue(s)) == s && (s != "0" ==> NumeralValue(s) > 0)
  {
    if |s| > 1 {
      var front := s[..|s| - 1];
      CanonicalRoundTrip(front);
      assert front != "0" by { assert front[0] == s[0]; }
      assert s == front + [s[|s| - 1]];
    }
  }

  function CentsText(n: nat): string {
    Numeral(n / 100) + "." + [Digit(n / 10 % 10), Digit(n % 10)]
  }

  predicate IsAmount(s: string) {
    |s| >= 4 && IsNumeral(s[..|s| - 3]) && s[|s| - 3] == '.' && IsDigit(s[|s| - 2]) && IsDigit(s[|s| - 1])
  }

  /** The exact value of the text, in cents. */
  function CentsOf(s: string): nat
    requires IsAmount(s)
  {
    100 * NumeralValue(s[..|s| - 3]) + 10 * DigitValue(s[|s| - 2]) + DigitValue(s[|s| - 1])
  }

  lemma Places(v: nat, a: nat, b: nat)
    requires a < 10 && b < 10
    ensures var n := 100 * v + 10 * a + b; n / 100 == v && n / 10 % 10 == a && n % 10 == b
  {
    assert (100 * v + 10 * a + b) / 10 == 10 * v + a;
  }

  lemma DigitsAddUp(n: nat)
    ensures 100 * (n / 100) + 10 * (n / 10 % 10) + n % 10 == n
  {
    assert n / 100 == n / 10 / 10;
  }

  /** Two digits after the point, and at least one before it. */
  lemma TextsOfCents()
    ensures CentsText(7) == "0.07" && CentsText(1250) == "12.50"
  {
    assert Numeral(1) == "1";
    assert Numeral(12) == "12";
  }

  /** Printing and parsing undo each other, for every amount of cents ... */
  lemma PrintParse(n: nat)
    ensures IsAmount(CentsText(n)) && CentsOf(CentsText(n)) == n
  {
    hide Numeral, NumeralValue, IsNumeral;
    var s := CentsText(n);
    NumeralRoundTrip(n / 100);
    assert s[..|s| - 3] == Numeral(n / 100);
    DigitsAddUp(n);
  }

  /** ... and for every amount text without superfluous leading zeros. */
  lemma ParsePrint(s: string)
    requires IsAmount(s) && Canonical(s[..|s| - 3])
    ensures CentsText(CentsOf(s)) == s
  {
    var whole, a, b := s[..|s| - 3], s[|s| - 2], s[|s| - 1];
    CanonicalRoundTrip(whole);
    Places(NumeralValue(whole), DigitValue(a), DigitValue(b));
    hide Numeral, NumeralValue, IsNumeral;
    assert s == whole + "." + [a, b];
  }

  // ---- JavaScript numbers

  /** `parseFloat` of an amount text: the decimal value, correctly rounded. */
  function ParseFloat(s: string): real
    requires IsAmount(s)
  {
    Fl(CentsOf(s) as real / 100.0)
  }

  /** `Math.round`: the nearest integer, the larger one on a tie. */
  function MathRound(x: real): int {
    (x + 0.5).Floor
  }

  /** The nearest integer, and of two the larger. */
  lemma MathRoundIsNearest(x: real)
    ensures -0.5 <= MathRound(x) as real - x <= 0.5
    ensures MathRound(x) as real - x != -0.5
  {
  }

  /** `toFixed(2)`: the text of the integer n for which n/100 is nearest to |x|, the larger on a tie,
      after a minus sign when x is negative. */
  function ToFixed2(x: real): string {
    if x < 0.0 then "-" + CentsText((-x * 100.0 + 0.5).Floor) else CentsText((x * 100.0 + 0.5).Floor)
  }

  // ---- The services' computations

  /** `parseFloat(price) * quantity`, used by the cart and by the order total. */
  function LineValue(price: string, quantity: int): real
    requires IsAmount(price)
  {
    Fl(ParseFloat(price) * quantity as real)
  }

  /** `Math.round(parseFloat(price) * quantity * 100)` */
  function LineCents(price: string, quantity: int): int
    requires IsAmount(price)
  {
    MathRound(Fl(LineValue(price, quantity) * 100.0))
  }

  /** `(request.amount / 100).toFixed(2)` */
  function StoredAmount(cents: int): string {
    ToFixed2(Fl(cents as real / 100.0))
  }

  // The smallest amount in cents that a numeric(12,2) column refuses.
  const AMOUNT_LIMIT := 1_000_000_000_000

  /** The numeric(12,2) column takes the text. */
  predicate FitsColumn(text: string) {
    IsAmount(text) && CentsOf(text) < AMOUNT_LIMIT
  }
}
