/**
 * The part of C `atof` that a PMU status value goes through: an optional
 * sign, the longest run of decimal digits, and an optional fractional part.
 * Whatever is not a number contributes nothing, so a token that does not
 * start like a number reads as 0.
 */
module Magnitude {
  import opened Format

  /** The longest prefix of `s` made of decimal digits. */
  function LeadingDigits(s: string): (p: string)
    ensures AllDigits(p) && p <= s
    ensures |p| == |s| || !IsDigit(s[|p|])
  {
    if |s| == 0 || !IsDigit(s[0]) then "" else [s[0]] + LeadingDigits(s[1..])
  }

  /** An unsigned number: integer digits, then optionally `.` and fraction digits. */
  function ParseUnsigned(s: string): (v: real)
    ensures v >= 0.0
  {
    var whole := LeadingDigits(s);
    var rest := s[|whole|..];
    if |rest| > 0 && rest[0] == '.' then
      var frac := LeadingDigits(rest[1..]);
      DigitsValue(whole) as real + DigitsValue(frac) as real / Pow10(|frac|) as real
    else
      DigitsValue(whole) as real
  }

  /** `atof` of one token of a status line. */
  function ParseMagnitude(tok: string): (v: real)
    ensures |tok| == 0 ==> v == 0.0
    ensures |tok| > 0 && !IsDigit(tok[0]) && tok[0] !in "+-." ==> v == 0.0
    ensures |tok| > 0 && IsDigit(tok[0]) ==> v >= 0.0
  {
    if |tok| > 0 && tok[0] == '-' then -ParseUnsigned(tok[1..])
    else if |tok| > 0 && tok[0] == '+' then ParseUnsigned(tok[1..])
    else ParseUnsigned(tok)
  }

  lemma {:induction false} LeadingDigitsOfDigits(s: string)
    requires AllDigits(s)
    ensures LeadingDigits(s) == s
  {
    if |s| > 0 {
      LeadingDigitsOfDigits(s[1..]);
    }
  }

  lemma {:induction false} LeadingDigitsAppend(s: string, t: string)
    requires AllDigits(s)
    ensures LeadingDigits(s + t) == s + LeadingDigits(t)
  {
    if |s| == 0 {
      assert s + t == t;
    } else {
      assert (s + t)[0] == s[0];
      assert (s + t)[1..] == s[1..] + t;
      LeadingDigitsAppend(s[1..], t);
      assert s == [s[0]] + s[1..];
    }
  }

  /** The integer digits of `whole.frac` are `whole`, and `.frac` follows them. */
  lemma SplitAtPoint(whole: string, frac: string)
    requires AllDigits(whole)
    ensures LeadingDigits(whole + "." + frac) == whole
    ensures (whole + "." + frac)[|whole|] == '.'
    ensures (whole + "." + frac)[|whole| + 1..] == frac
  {
    var rest := "." + frac;
    assert whole + "." + frac == whole + rest;
    LeadingDigitsAppend(whole, rest);
    assert LeadingDigits(rest) == "";
  }

  /** An unsigned token is read through its integer digits and its fraction digits. */
  lemma ParseUnsignedAt(tok: string, whole: string, frac: string)
    requires LeadingDigits(tok) == whole
    requires |tok| > |whole| && tok[|whole|] == '.'
    requires LeadingDigits(tok[|whole| + 1..]) == frac
    ensures ParseUnsigned(tok)
            == DigitsValue(whole) as real + DigitsValue(frac) as real / Pow10(|frac|) as real
  {
    assert tok[|whole|..][1..] == tok[|whole| + 1..];
  }

  /** A decimal fraction `a.b` parses to a plus b over ten to the number of b's digits. */
  lemma ParseFraction(a: nat, b: nat)
    ensures ParseMagnitude(DecimalString(a) + "." + DecimalString(b))
            == a as real + b as real / Pow10(|DecimalString(b)|) as real
  {
    var da, db := DecimalString(a), DecimalString(b);
    var tok := da + "." + db;
    assert tok[0] == da[0];
    SplitAtPoint(da, db);
    LeadingDigitsOfDigits(db);
    ParseUnsignedAt(tok, da, db);
    DecimalRoundTrip(a);
    DecimalRoundTrip(b);
  }

  /** Parsing the `%i` rendering of a number gives the number back. */
  lemma ParseRendered(n: nat)
    ensures ParseMagnitude(DecimalString(n)) == n as real
  {
    var s := DecimalString(n);
    LeadingDigitsOfDigits(s);
    assert s[|s|..] == [];
    DecimalRoundTrip(n);
  }

  /** A leading minus sign negates the rendered number. */
  lemma ParseNegative(n: nat)
    ensures ParseMagnitude("-" + DecimalString(n)) == -(n as real)
  {
    assert ("-" + DecimalString(n))[1..] == DecimalString(n);
    ParseRendered(n);
  }
}
