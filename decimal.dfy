/** Fixed-point decimals. Grams are held as integers counting hundredths of a gram,
    so the two-decimal fingerprint format is exact. */
module Decimal {
  import opened Wrappers
  import opened Text

  function Abs(n: int): nat { if n < 0 then -n else n }

  /** The two fraction digits of a hundredths value. */
  function Cents(m: nat): string {
    [DigitChar(m % 100 / 10), DigitChar(m % 10)]
  }

  /** The unsigned two-decimal text of a hundredths value. */
  function Unsigned2(m: nat): string {
    NatToString(m / 100) + "." + Cents(m)
  }

  /** `String.format(Locale.US, "%.2f", x)` for x = n / 100. */
  function Fixed2(n: int): (r: string)
    ensures '|' !in r
  {
    (if n < 0 then "-" else "") + Unsigned2(Abs(n))
  }

  /** Position of the first `c` in `s`, or |s| when there is none (Kotlin `indexOf`, with
      "absent" moved to the end so that slicing stays simple). */
  function IndexOf(s: string, c: char): (k: nat)
    ensures k <= |s| && c !in s[..k] && (k < |s| ==> s[k] == c)
  {
    if s == [] then 0
    else if s[0] == c then 0
    else 1 + IndexOf(s[1..], c)
  }

  /** The hundredths a fraction's digits round to, half away from zero. */
  function FractionHundredths(frac: string): (h: nat)
    requires AllDigits(frac)
    ensures h <= 100
  {
    var d1 := if |frac| > 0 then DigitValue(frac[0]) else 0;
    var d2 := if |frac| > 1 then DigitValue(frac[1]) else 0;
    var up := if |frac| > 2 && DigitValue(frac[2]) >= 5 then 1 else 0;
    d1 * 10 + d2 + up
  }

  /** An unsigned decimal `digits[.digits]`, at least one digit, in hundredths. */
  function ParseUnsigned(s: string): Option<nat> {
    var k := IndexOf(s, '.');
    var whole := s[..k];
    var frac := if k < |s| then s[k + 1..] else "";
    if !AllDigits(whole) || !AllDigits(frac) || (whole == [] && frac == []) then None
    else Some(DigitsValue(whole) * 100 + FractionHundredths(frac))
  }

  /** Kotlin `toDoubleOrNull()` restricted to plain decimal notation with an optional sign,
      the value rounded to hundredths. */
  function ParseDecimal(s: string): Option<int> {
    if |s| > 0 && (s[0] == '-' || s[0] == '+') then
      match ParseUnsigned(s[1..])
      case None => None
      case Some(m) => Some(if s[0] == '-' then -(m as int) else m as int)
    else
      ParseUnsigned(s)
  }

  /** The digits of `m`'s fraction with trailing zeros dropped. */
  function FractionText(m: nat): string {
    if m % 100 == 0 then ""
    else if m % 10 == 0 then "." + [DigitChar(m % 100 / 10)]
    else "." + Cents(m)
  }

  /** The text org.json writes for the number n / 100: no trailing zeros, no point for
      whole numbers. */
  function NumberText(n: int): (r: string)
    ensures |r| >= 1
  {
    (if n < 0 then "-" else "") + NatToString(Abs(n) / 100) + FractionText(Abs(n))
  }

  /** The two-decimal text starts with a sign or a digit, ends with a digit and has no comma. */
  lemma Fixed2Shape(n: int)
    ensures var r := Fixed2(n);
      ',' !in r && |r| >= 4 && (r[0] == '-' || IsDigit(r[0])) && IsDigit(r[|r| - 1])
  {
  }

  lemma CentsValue(m: nat)
    ensures AllDigits(Cents(m)) && FractionHundredths(Cents(m)) == m % 100
  {
  }

  lemma ParseUnsignedFixed(m: nat)
    ensures ParseUnsigned(Unsigned2(m)) == Some(m)
  {
    var w := NatToString(m / 100);
    var s := w + "." + Cents(m);
    assert forall i :: 0 <= i < |w| ==> s[i] == w[i] && s[i] != '.';
    assert s[|w|] == '.';
    assert IndexOf(s, '.') == |w| by {
      IndexOfAfter(w, '.', "." + Cents(m));
      assert s == w + ("." + Cents(m));
    }
    assert s[..|w|] == w;
    assert s[|w| + 1..] == Cents(m);
    NatToStringValue(m / 100);
    CentsValue(m);
  }

  lemma {:induction false} IndexOfAfter(w: string, c: char, rest: string)
    requires c !in w && rest != [] && rest[0] == c
    ensures IndexOf(w + rest, c) == |w|
  {
    if w != [] {
      assert (w + rest)[1..] == w[1..] + rest;
      IndexOfAfter(w[1..], c, rest);
    } else {
      assert w + rest == rest;
    }
  }

  /** A sign in front of an unsigned decimal that opens with a digit negates it; no sign
      keeps it. */
  lemma ParseSigned(body: string, m: nat)
    requires ParseUnsigned(body) == Some(m) && |body| > 0 && IsDigit(body[0])
    ensures ParseDecimal(body) == Some(m) && ParseDecimal("-" + body) == Some(-(m as int))
  {
    assert ("-" + body)[1..] == body;
  }

  /** Reading back the two-decimal text of a value gives the value. */
  lemma Fixed2RoundTrip(n: int)
    ensures ParseDecimal(Fixed2(n)) == Some(n)
  {
    var body := Unsigned2(Abs(n));
    ParseUnsignedFixed(Abs(n));
    assert body[0] == NatToString(Abs(n) / 100)[0];
    ParseSigned(body, Abs(n));
    if n < 0 {
      assert Fixed2(n) == "-" + body;
    } else {
      assert Fixed2(n) == body;
    }
  }

  /** Values print the same at two decimals only if they are equal. */
  lemma Fixed2Injective(a: int, b: int)
    ensures Fixed2(a) == Fixed2(b) <==> a == b
  {
    Fixed2RoundTrip(a);
    Fixed2RoundTrip(b);
  }
}
