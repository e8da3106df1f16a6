/** `Number.prototype.toFixed(1)` applied to a quotient `(a / b) * 100`,
    computed on the exact rational value rather than on binary floating
    point. Division by zero gives `NaN` or an infinity, as in JavaScript. */
module JsNumber {

  function DigitChar(d: nat): (c: char)
    requires d < 10
    ensures '0' <= c <= '9'
  {
    ('0' as int + d) as char
  }

  /** Decimal digits of `n`, without grouping and without leading zeros. */
  function Decimal(n: nat): (s: string)
    decreases n
    ensures |s| > 0
    ensures forall k :: 0 <= k < |s| ==> '0' <= s[k] <= '9'
  {
    if n < 10 then [DigitChar(n)] else Decimal(n / 10) + [DigitChar(n % 10)]
  }

  /** The number a string of decimal digits denotes. */
  function DigitsValue(s: string): nat
    requires forall k :: 0 <= k < |s| ==> '0' <= s[k] <= '9'
  {
    if s == [] then 0
    else DigitsValue(s[..|s| - 1]) * 10 + (s[|s| - 1] as int - '0' as int)
  }

  /** Reading back the digits gives the number. */
  lemma {:induction false} DecimalRoundTrip(n: nat)
    ensures DigitsValue(Decimal(n)) == n
  {
    if n >= 10 {
      var s := Decimal(n);
      assert s[..|s| - 1] == Decimal(n / 10);
      DecimalRoundTrip(n / 10);
    }
  }

  /** Decimal digits start with a non-zero digit unless the number is 0. */
  lemma {:induction false} DecimalNoLeadingZero(n: nat)
    ensures Decimal(n)[0] == '0' <==> n == 0
  {
    if n >= 10 {
      DecimalNoLeadingZero(n / 10);
    }
  }

  /** The integer nearest to `x / d`, the larger one on a tie. */
  function RoundHalfUp(x: nat, d: nat): (n: nat)
    requires d > 0
    ensures 2 * d * n <= 2 * x + d < 2 * d * (n + 1)
  {
    var q := (2 * x + d) / (2 * d);
    assert (2 * x + d) == (2 * d) * q + (2 * x + d) % (2 * d);
    q
  }

  /** What `toFixed(1)` prints: not a number, an infinity, or a count of
      tenths with a sign. */
  datatype Fixed1 = NaN | Infinity(negative: bool) | Tenths(negative: bool, tenths: nat)

  function Abs(x: int): nat { if x < 0 then -x else x }

  /** `((num / den) * 100).toFixed(1)`. An exact quotient below zero prints
      with a minus sign even when it rounds to `0.0`. */
  function PercentOf(num: int, den: int): (r: Fixed1)
    ensures den == 0 && num == 0 ==> r == NaN
    ensures den == 0 && num != 0 ==> r == Infinity(num < 0)
    ensures den != 0 ==> r.Tenths?
    ensures den != 0 ==> (r.negative <==> num * den < 0)
    ensures den != 0 ==>
      2 * Abs(den) * r.tenths <= 2000 * Abs(num) + Abs(den) < 2 * Abs(den) * (r.tenths + 1)
  {
    if den == 0 then
      if num == 0 then NaN else Infinity(num < 0)
    else
      Tenths((num < 0) != (den < 0) && num != 0, RoundHalfUp(1000 * Abs(num), Abs(den)))
  }

  /** A share `part / whole` of a non-negative whole is between 0.0 and 100.0. */
  lemma PercentOfShareBounded(part: int, whole: int)
    requires 0 <= part <= whole && whole > 0
    ensures PercentOf(part, whole) == Tenths(false, PercentOf(part, whole).tenths)
    ensures PercentOf(part, whole).tenths <= 1000
  {
    var n := PercentOf(part, whole).tenths;
    assert 2 * whole * n <= 2000 * part + whole;
    assert 2000 * part + whole <= 2001 * whole;
    if n > 1000 {
      MulMonotone(2 * whole, 1001, n);
      assert false;
    }
  }

  lemma MulMonotone(w: nat, a: nat, b: nat)
    requires a <= b
    ensures w * a <= w * b
  {
  }

  /** The characters `toFixed(1)` produces. */
  function Fixed1Text(f: Fixed1): (r: string)
    ensures |r| >= 3
    ensures r[0] == '-' <==> !f.NaN? && f.negative
    ensures f.Tenths? ==> r[|r| - 2] == '.' && r[|r| - 1] == DigitChar(f.tenths % 10)
  {
    match f
    case NaN => "NaN"
    case Infinity(neg) => (if neg then "-" else "") + "Infinity"
    case Tenths(neg, n) => (if neg then "-" else "") + Decimal(n / 10) + "." + [DigitChar(n % 10)]
  }

  /** A finite result is digits, a point and exactly one digit after it. */
  lemma Fixed1TextShape(neg: bool, n: nat)
    ensures var t := Fixed1Text(Tenths(neg, n));
      var d := Decimal(n / 10);
      var sign := if neg then 1 else 0;
      && |t| == sign + |d| + 2
      && t[sign..sign + |d|] == d
      && t[sign + |d|] == '.'
      && t[|t| - 1] == DigitChar(n % 10)
      && (neg ==> t[0] == '-')
      && (!neg ==> '0' <= t[0] <= '9')
  {
  }
}
