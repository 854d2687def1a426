/**
 * The fixed-size buffers of the battery plugin and the `%i` rendering of a
 * slot index that every path and label in it is built from.
 */
module Format {

  /** Size of every character buffer in the plugin (BUFSIZE). */
  const BufSize: nat := 512

  /** Largest value of the C `int` that holds a slot index. */
  const IntMax: nat := 2147483647

  /** `snprintf` into a BUFSIZE buffer succeeded without truncation. */
  predicate Fits(s: string)
  {
    |s| < BufSize
  }

  function Pow10(k: nat): (r: nat)
    ensures r >= 1
  {
    if k == 0 then 1 else 10 * Pow10(k - 1)
  }

  predicate IsDigit(c: char)
  {
    '0' <= c <= '9'
  }

  predicate AllDigits(s: string)
  {
    forall i :: 0 <= i < |s| ==> IsDigit(s[i])
  }

  function DigitChar(d: nat): (c: char)
    requires d < 10
    ensures IsDigit(c)
  {
    ('0' as int + d) as char
  }

  function DigitOf(c: char): (d: nat)
    requires IsDigit(c)
    ensures d < 10
    ensures DigitChar(d) == c
  {
    c as int - '0' as int
  }

  /**
   * `%i` applied to a non-negative index: its decimal digits, most
   * significant first, with no sign and no leading zero.
   */
  function DecimalString(n: nat): (s: string)
    ensures |s| >= 1
    ensures AllDigits(s)
    ensures |s| > 1 ==> s[0] != '0'
  {
    if n < 10 then [DigitChar(n)] else DecimalString(n / 10) + [DigitChar(n % 10)]
  }

  /** The number a string of decimal digits denotes (most significant first). */
  function DigitsValue(s: string): (v: nat)
    requires AllDigits(s)
    ensures v < Pow10(|s|)
  {
    if |s| == 0 then 0
    else
      var v0 := DigitsValue(s[..|s| - 1]);
      var d := DigitOf(s[|s| - 1]);
      assert v0 + 1 <= Pow10(|s| - 1);
      assert 10 * v0 + 10 <= 10 * Pow10(|s| - 1);
      10 * v0 + d
  }

  /** Reading the rendered digits back gives the index again. */
  lemma {:induction false} DecimalRoundTrip(n: nat)
    ensures DigitsValue(DecimalString(n)) == n
  {
    var s := DecimalString(n);
    if n < 10 {
      assert s[..0] == [];
    } else {
      assert s[..|s| - 1] == DecimalString(n / 10);
      DecimalRoundTrip(n / 10);
      assert DigitOf(DigitChar(n % 10)) == n % 10;
    }
  }

  /** Distinct indices are rendered as distinct strings. */
  lemma DecimalInjective(a: nat, b: nat)
    ensures DecimalString(a) == DecimalString(b) <==> a == b
  {
    if DecimalString(a) == DecimalString(b) {
      DecimalRoundTrip(a);
      DecimalRoundTrip(b);
    }
  }

  /** An index below 10^k needs at most k digits. */
  lemma {:induction false} DecimalLengthUpper(n: nat, k: nat)
    requires k >= 1 && n < Pow10(k)
    ensures |DecimalString(n)| <= k
  {
    if n >= 10 {
      assert Pow10(1) == 10;
      assert n / 10 < Pow10(k - 1);
      DecimalLengthUpper(n / 10, k - 1);
    }
  }

  /** An index of at least 10^k needs more than k digits. */
  lemma {:induction false} DecimalLengthLower(n: nat, k: nat)
    requires n >= Pow10(k)
    ensures |DecimalString(n)| > k
  {
    if k > 0 {
      assert n >= 10;
      assert n / 10 >= Pow10(k - 1);
      DecimalLengthLower(n / 10, k - 1);
    }
  }

  /** Every C `int` index renders in at most ten digits. */
  lemma IntIndexDigits(n: nat)
    requires n <= IntMax
    ensures |DecimalString(n)| <= 10
  {
    assert Pow10(10) == 10000000000;
    DecimalLengthUpper(n, 10);
  }
}
