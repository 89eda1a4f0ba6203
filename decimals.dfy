/** `System.Decimal.Parse` under the invariant culture, restricted to the
    inputs the metadata commands can hand it, and the invariant
    `Decimal.ToString()` that renders a parsed value back. A decimal keeps
    the digits it was written with: "7.50" is mantissa 750 at scale 2. */
module Decimals {
  import opened Wrappers

  datatype Decimal = Decimal(negative: bool, mantissa: nat, scale: nat)

  /** The message of the `FormatException` that `Decimal.Parse` throws. */
  const FormatError: string := "Input string was not in a correct format."

  predicate IsDigit(c: char) {
    '0' <= c <= '9'
  }

  predicate AllDigits(s: string) {
    forall i :: 0 <= i < |s| ==> IsDigit(s[i])
  }

  /** The number a string of decimal digits denotes (leading zeros allowed). */
  function DigitsValue(s: string): nat
    requires AllDigits(s)
  {
    if |s| == 0 then 0 else DigitsValue(s[..|s| - 1]) * 10 + (s[|s| - 1] as int - '0' as int)
  }

  /** Position of the first `c` in `s`, or `|s|` when there is none. */
  function IndexOf(s: string, c: char): (k: nat)
    ensures k <= |s|
    ensures k < |s| ==> s[k] == c
  {
    if |s| == 0 then 0
    else if s[0] == c then 0
    else 1 + IndexOf(s[1..], c)
  }

  /** `IndexOf` finds the first occurrence: it is `k` exactly when `s[k]`
      is `c` (or `k` is the end) and no earlier character is. */
  lemma {:induction false} IndexOfAt(s: string, c: char, k: nat)
    requires k <= |s| && (k < |s| ==> s[k] == c)
    requires forall i :: 0 <= i < k ==> s[i] != c
    ensures IndexOf(s, c) == k
    decreases k
  {
    if k > 0 {
      assert s[0] != c;
      IndexOfAt(s[1..], c, k - 1);
    }
  }

  /** `Decimal.Parse(s)`: an optional sign, digits, and an optional point
      followed by digits, with at least one digit in all. */
  function Parse(s: string): (r: Outcome<Decimal>)
  {
    if |s| > 0 && (s[0] == '-' || s[0] == '+') then ParseUnsigned(s[0] == '-', s[1..])
    else ParseUnsigned(false, s)
  }

  /** The part of `Parse` after the sign. */
  function ParseUnsigned(negative: bool, body: string): (r: Outcome<Decimal>)
  {
    var dot := IndexOf(body, '.');
    var whole := body[..dot];
    var frac := if dot < |body| then body[dot + 1..] else "";
    if AllDigits(whole) && AllDigits(frac) && |whole| + |frac| > 0 then
      DigitsConcat(whole, frac);
      Ok(Decimal(negative, DigitsValue(whole + frac), |frac|))
    else
      Err(FormatError)
  }

  lemma DigitsConcat(a: string, b: string)
    requires AllDigits(a) && AllDigits(b)
    ensures AllDigits(a + b)
  {
    forall i | 0 <= i < |a + b| ensures IsDigit((a + b)[i]) {
      if i >= |a| { assert (a + b)[i] == b[i - |a|]; }
    }
  }

  function DigitChar(d: nat): (c: char)
    requires d < 10
    ensures IsDigit(c) && c as int - '0' as int == d
  {
    ('0' as int + d) as char
  }

  /** The shortest digit string of `n`. */
  function NatDigits(n: nat): (r: string)
    ensures |r| > 0 && AllDigits(r)
    ensures DigitsValue(r) == n
  {
    if n < 10 then
      assert [DigitChar(n)][..0] == [];
      [DigitChar(n)]
    else
      var ds := NatDigits(n / 10);
      assert (ds + [DigitChar(n % 10)])[..|ds|] == ds;
      ds + [DigitChar(n % 10)]
  }

  function Zeros(k: nat): (r: string)
    ensures |r| == k && AllDigits(r)
  {
    seq(k, i => '0')
  }

  lemma {:induction false} ZerosValue(k: nat)
    ensures DigitsValue(Zeros(k)) == 0
  {
    if k > 0 {
      assert Zeros(k)[..k - 1] == Zeros(k - 1);
      ZerosValue(k - 1);
    }
  }

  /** Leading zeros do not change the value of a digit string. */
  lemma {:induction false} LeadingZeros(k: nat, ds: string)
    requires AllDigits(ds)
    ensures AllDigits(Zeros(k) + ds)
    ensures DigitsValue(Zeros(k) + ds) == DigitsValue(ds)
    decreases |ds|
  {
    var s := Zeros(k) + ds;
    assert AllDigits(s) by {
      forall i | 0 <= i < |s| ensures IsDigit(s[i]) {
        if i >= k { assert s[i] == ds[i - k]; }
      }
    }
    if |ds| == 0 {
      assert s == Zeros(k);
      ZerosValue(k);
    } else {
      assert s[..|s| - 1] == Zeros(k) + ds[..|ds| - 1];
      LeadingZeros(k, ds[..|ds| - 1]);
    }
  }

  /** The digits of `n`, left-padded with zeros to at least `width`. */
  function Padded(n: nat, width: nat): (r: string)
    ensures |r| >= width && |r| > 0 && AllDigits(r)
    ensures DigitsValue(r) == n
  {
    var ds := NatDigits(n);
    if |ds| < width then
      LeadingZeros(width - |ds|, ds);
      Zeros(width - |ds|) + ds
    else ds
  }

  /** `d.ToString(CultureInfo.InvariantCulture)`: sign, integer digits and,
      when the scale is positive, a point and exactly `scale` digits. */
  function Format(d: Decimal): string {
    (if d.negative then "-" else "") + Unsigned(d)
  }

  /** A formatted decimal without its sign: the mantissa's digits, padded
      to more than `scale` digits, with a point before the last `scale`. */
  function Unsigned(d: Decimal): string {
    var ds := Padded(d.mantissa, d.scale + 1);
    var cut := |ds| - d.scale;
    ds[..cut] + (if d.scale > 0 then "." + ds[cut..] else "")
  }

  lemma ParsePointed(negative: bool, whole: string, frac: string)
    requires AllDigits(whole) && AllDigits(frac) && |whole| > 0
    ensures AllDigits(whole + frac)
    ensures ParseUnsigned(negative, whole + "." + frac) == Ok(Decimal(negative, DigitsValue(whole + frac), |frac|))
  {
    DigitsConcat(whole, frac);
    var body := whole + "." + frac;
    assert body[|whole|] == '.';
    assert forall i :: 0 <= i < |whole| ==> body[i] == whole[i];
    IndexOfAt(body, '.', |whole|);
    var dot := IndexOf(body, '.');
    assert body[..dot] == whole;
    assert body[dot + 1..] == frac;
  }

  lemma ParseWhole(negative: bool, whole: string)
    requires AllDigits(whole) && |whole| > 0
    ensures ParseUnsigned(negative, whole) == Ok(Decimal(negative, DigitsValue(whole), 0))
  {
    IndexOfAt(whole, '.', |whole|);
    var dot := IndexOf(whole, '.');
    assert whole[..dot] == whole;
    assert whole + "" == whole;
  }

  /** The two pieces `Format` cuts the padded digits into. */
  lemma FormatPieces(d: Decimal) returns (whole: string, frac: string)
    ensures AllDigits(whole) && AllDigits(frac) && |whole| > 0 && |frac| == d.scale
    ensures AllDigits(whole + frac) && DigitsValue(whole + frac) == d.mantissa
    ensures Unsigned(d) == whole + (if d.scale > 0 then "." + frac else "")
  {
    var ds := Padded(d.mantissa, d.scale + 1);
    var cut := |ds| - d.scale;
    whole, frac := ds[..cut], ds[cut..];
    assert whole + frac == ds;
  }

  lemma ParseUnsignedFormat(d: Decimal)
    ensures ParseUnsigned(d.negative, Unsigned(d)) == Ok(d)
  {
    var whole, frac := FormatPieces(d);
    if d.scale > 0 {
      assert Unsigned(d) == whole + "." + frac;
      ParsePointed(d.negative, whole, frac);
    } else {
      assert Unsigned(d) == whole;
      ParseWhole(d.negative, whole);
    }
  }

  /** A leading '-' is the sign; a leading digit leaves the text unsigned. */
  lemma ParseSigned(negative: bool, body: string)
    requires |body| > 0 && IsDigit(body[0])
    ensures Parse((if negative then "-" else "") + body) == ParseUnsigned(negative, body)
  {
    var s := (if negative then "-" else "") + body;
    if negative {
      assert s[0] == '-' && s[1..] == body;
    } else {
      assert s == body;
    }
  }

  /** Parsing a formatted decimal gives back the same decimal, scale and
      trailing zeros included. */
  lemma ParseFormat(d: Decimal)
    ensures Parse(Format(d)) == Ok(d)
  {
    var whole, frac := FormatPieces(d);
    assert Unsigned(d)[0] == whole[0];
    ParseSigned(d.negative, Unsigned(d));
    ParseUnsignedFormat(d);
  }
}
