/** String helpers with the meaning of the Kotlin standard library calls the app uses. */
module Text {

  /** Kotlin `Char.isWhitespace()`: Java's `Character.isWhitespace` or
      `Character.isSpaceChar`, that is the space, the controls U+0009 to U+000D and U+001C to
      U+001F, and the Unicode space and separator characters. */
  predicate IsWhitespace(c: char) {
    c == ' ' || '\t' <= c <= '\r' || '\U{1C}' <= c <= '\U{1F}' || c == '\U{A0}' || c == '\U{1680}'
    || '\U{2000}' <= c <= '\U{200A}' || c == '\U{2028}' || c == '\U{2029}' || c == '\U{202F}'
    || c == '\U{205F}' || c == '\U{3000}'
  }

  /** Kotlin `isBlank()`: empty or whitespace only. */
  predicate IsBlank(s: string) {
    forall i :: 0 <= i < |s| ==> IsWhitespace(s[i])
  }

  lemma BlankConcat(a: string, b: string)
    requires IsBlank(a) && IsBlank(b)
    ensures IsBlank(a + b)
  {
    forall k | 0 <= k < |a + b| ensures IsWhitespace((a + b)[k]) {
      if k < |a| { assert (a + b)[k] == a[k]; } else { assert (a + b)[k] == b[k - |a|]; }
    }
  }

  /** The number of whitespace characters at the start of `s`. */
  function LeadingBlank(s: string): (n: nat)
    ensures n <= |s|
  {
    if s == [] || !IsWhitespace(s[0]) then 0 else 1 + LeadingBlank(s[1..])
  }

  /** The leading run is all whitespace and stops at the first other character. */
  lemma {:induction false} LeadingBlankShape(s: string)
    ensures var n := LeadingBlank(s); IsBlank(s[..n]) && (n == |s| || !IsWhitespace(s[n]))
  {
    if s != [] && IsWhitespace(s[0]) {
      var n := LeadingBlank(s);
      LeadingBlankShape(s[1..]);
      assert s[..n] == [s[0]] + s[1..][..n - 1];
      BlankConcat([s[0]], s[1..][..n - 1]);
    }
  }

  /** The number of whitespace characters at the end of `s`. */
  function TrailingBlank(s: string): (n: nat)
    ensures n <= |s|
  {
    if s == [] || !IsWhitespace(s[|s| - 1]) then 0 else 1 + TrailingBlank(s[..|s| - 1])
  }

  /** The trailing run is all whitespace and stops at the last other character. */
  lemma {:induction false} TrailingBlankShape(s: string)
    ensures var n := TrailingBlank(s);
      IsBlank(s[|s| - n..]) && (n == |s| || !IsWhitespace(s[|s| - n - 1]))
  {
    if s != [] && IsWhitespace(s[|s| - 1]) {
      var n := TrailingBlank(s);
      TrailingBlankShape(s[..|s| - 1]);
      assert s[|s| - n..] == s[..|s| - 1][|s| - n..] + [s[|s| - 1]];
      BlankConcat(s[..|s| - 1][|s| - n..], [s[|s| - 1]]);
    }
  }

  /** Kotlin `trimStart()`. */
  function TrimStart(s: string): string {
    s[LeadingBlank(s)..]
  }

  /** Kotlin `trimEnd()`. */
  function TrimEnd(s: string): string {
    s[..|s| - TrailingBlank(s)]
  }

  /** Kotlin `trim()`: drops leading and trailing whitespace. */
  function Trim(s: string): string {
    TrimEnd(TrimStart(s))
  }

  /** The trimmed string lies inside the original, with only whitespace cut at either end. */
  lemma TrimShape(s: string) returns (i: nat, j: nat)
    ensures i <= j <= |s| && Trim(s) == s[i..j]
    ensures IsBlank(s[..i]) && IsBlank(s[j..])
    ensures i == j || (!IsWhitespace(s[i]) && !IsWhitespace(s[j - 1]))
  {
    i := LeadingBlank(s);
    LeadingBlankShape(s);
    var t := s[i..];
    var m := TrailingBlank(t);
    TrailingBlankShape(t);
    j := |s| - m;
    assert TrimStart(s) == t;
    assert Trim(s) == t[..|t| - m];
    assert t[..|t| - m] == s[i..j];
    assert s[j..] == t[|t| - m..];
    if i < j {
      assert s[i] == t[0];
      assert s[j - 1] == t[|t| - m - 1];
    }
  }

  lemma TrimStartOfBlankPrefix(p: string, s: string)
    requires IsBlank(p)
    requires s == [] || !IsWhitespace(s[0])
    ensures TrimStart(p + s) == s
  {
    if p != [] {
      assert (p + s)[1..] == p[1..] + s;
      TrimStartOfBlankPrefix(p[1..], s);
    } else {
      assert p + s == s;
    }
  }

  lemma TrimEndOfBlankSuffix(s: string, q: string)
    requires IsBlank(q)
    requires s == [] || !IsWhitespace(s[|s| - 1])
    ensures TrimEnd(s + q) == s
  {
    if q != [] {
      assert (s + q)[..|s + q| - 1] == s + q[..|q| - 1];
      TrimEndOfBlankSuffix(s, q[..|q| - 1]);
    } else {
      assert s + q == s;
    }
  }

  /** A string with no whitespace at either end trims to itself. */
  lemma TrimOfTrimmed(t: string)
    requires t == [] || (!IsWhitespace(t[0]) && !IsWhitespace(t[|t| - 1]))
    ensures Trim(t) == t
  {
    TrimStartOfBlankPrefix([], t);
    assert [] + t == t;
    TrimEndOfBlankSuffix(t, []);
    assert t + [] == t;
  }

  /** Trimming is idempotent. */
  lemma TrimIdempotent(s: string)
    ensures Trim(Trim(s)) == Trim(s)
  {
    var i, j := TrimShape(s);
    TrimOfTrimmed(s[i..j]);
  }

  /** A string trims to the empty string exactly when it is blank. */
  lemma BlankTrimsToEmpty(s: string)
    ensures IsBlank(s) <==> Trim(s) == []
  {
    var i, j := TrimShape(s);
    assert forall m :: 0 <= m < i ==> s[..i][m] == s[m];
    assert forall m :: j <= m < |s| ==> s[j..][m - j] == s[m];
  }

  /** A string with no whitespace at its ends, padded with whitespace, trims back to itself. */
  lemma TrimAround(pre: string, t: string, post: string)
    requires IsBlank(pre) && IsBlank(post)
    requires t == [] || (!IsWhitespace(t[0]) && !IsWhitespace(t[|t| - 1]))
    ensures Trim(pre + t + post) == t
  {
    if t == [] {
      BlankConcat(pre, post);
      assert pre + t + post == pre + post;
      BlankTrimsToEmpty(pre + post);
    } else {
      assert pre + t + post == pre + (t + post);
      TrimStartOfBlankPrefix(pre, t + post);
      TrimEndOfBlankSuffix(t, post);
    }
  }

  lemma Regroup(p: string, s: string, q: string, i: nat, j: nat)
    requires i <= j <= |s|
    ensures p + s + q == (p + s[..i]) + s[i..j] + (s[j..] + q)
  {
    assert s == s[..i] + s[i..j] + s[j..];
  }

  /** Whitespace around a string does not change what it trims to. */
  lemma TrimPadded(p: string, s: string, q: string)
    requires IsBlank(p) && IsBlank(q)
    ensures Trim(p + s + q) == Trim(s)
  {
    var i, j := TrimShape(s);
    var t := s[i..j];
    Regroup(p, s, q, i, j);
    BlankConcat(p, s[..i]);
    BlankConcat(s[j..], q);
    TrimAround(p + s[..i], t, s[j..] + q);
  }

  /** Trimming the end of a text with a non-blank tail only touches the tail. */
  lemma {:induction false} TrailingBlankOfNonBlank(p: string, s: string)
    requires !IsBlank(s)
    ensures TrailingBlank(p + s) == TrailingBlank(s)
  {
    var t := p + s;
    if IsWhitespace(s[|s| - 1]) {
      var front := s[..|s| - 1];
      assert t[..|t| - 1] == p + front;
      TrailingBlankOfNonBlank(p, front);
    }
  }

  lemma TrimEndNonBlankSuffix(p: string, s: string)
    requires !IsBlank(s)
    ensures TrimEnd(p + s) == p + TrimEnd(s)
  {
    TrailingBlankOfNonBlank(p, s);
    assert (p + s)[..|p| + |s| - TrailingBlank(s)] == p + s[..|s| - TrailingBlank(s)];
  }

  /** A prefix that ends in a non-whitespace character survives `trimEnd`. */
  lemma TrimEndKeepsPrefix(p: string, x: string)
    requires p != [] && !IsWhitespace(p[|p| - 1])
    ensures StartsWith(TrimEnd(p + x), p)
  {
    var s := p + x;
    var n := TrailingBlank(s);
    TrailingBlankShape(s);
    assert s[|p| - 1] == p[|p| - 1];
    assert n <= |x|;
    assert TrimEnd(s)[..|p|] == p;
  }

  predicate StartsWith(s: string, prefix: string) {
    |prefix| <= |s| && s[..|prefix|] == prefix
  }

  /** Kotlin `contains` on strings: `part` occurs in `s` at some position. */
  predicate Contains(s: string, part: string) {
    exists i :: 0 <= i <= |s| - |part| && OccursAt(s, part, i)
  }

  predicate OccursAt(s: string, part: string, i: int) {
    0 <= i <= |s| - |part| && s[i..i + |part|] == part
  }

  /** Kotlin `lowercase()` (`Locale.ROOT`) of one character, for every character whose lower
      case holds an ASCII character: the letters A to Z, U+212A KELVIN SIGN (to `k`) and
      U+0130 (to `i` followed by U+0307). Every other character is kept as it is; its real
      lower case lies wholly outside ASCII, as the character itself does, so neither can be
      part of an ASCII text found in the result. */
  function LowerText(c: char): (r: string)
    ensures |r| >= 1
  {
    if 'A' <= c <= 'Z' then [(c as int + 32) as char]
    else if c == '\U{212A}' then "k"
    else if c == '\U{130}' then "i\U{307}"
    else [c]
  }

  /** Kotlin `lowercase()`, character by character. */
  function ToLower(s: string): (r: string)
    ensures |r| >= |s|
  {
    if s == [] then [] else LowerText(s[0]) + ToLower(s[1..])
  }

  /** Lower-casing distributes over concatenation. */
  lemma {:induction false} ToLowerConcat(a: string, b: string)
    ensures ToLower(a + b) == ToLower(a) + ToLower(b)
  {
    if a != [] {
      assert (a + b)[0] == a[0] && (a + b)[1..] == a[1..] + b;
      ToLowerConcat(a[1..], b);
      calc {
        ToLower(a + b);
        LowerText(a[0]) + ToLower(a[1..] + b);
        LowerText(a[0]) + (ToLower(a[1..]) + ToLower(b));
        (LowerText(a[0]) + ToLower(a[1..])) + ToLower(b);
      }
    } else {
      assert a + b == b;
    }
  }

  /** A text that lower-casing changes nowhere. */
  predicate NoUpper(s: string) {
    forall i :: 0 <= i < |s| ==> !('A' <= s[i] <= 'Z') && s[i] != '\U{212A}' && s[i] != '\U{130}'
  }

  /** Lower-casing leaves a text without upper-case characters as it is. */
  lemma {:induction false} LowerOfNoUpper(s: string)
    requires NoUpper(s)
    ensures ToLower(s) == s
  {
    if s != [] {
      LowerOfNoUpper(s[1..]);
      assert s == [s[0]] + s[1..];
    }
  }

  /** A text already in lower case that occurs in `s` also occurs in its lower case. */
  lemma LowerKeepsOccurrence(s: string, part: string, at: nat)
    requires NoUpper(part) && OccursAt(s, part, at)
    ensures OccursAt(ToLower(s), part, |ToLower(s[..at])|)
  {
    var before, after := s[..at], s[at + |part|..];
    assert s == before + part + after;
    ToLowerConcat(before + part, after);
    ToLowerConcat(before, part);
    LowerOfNoUpper(part);
    assert ToLower(s) == ToLower(before) + part + ToLower(after);
  }

  /** U+212A KELVIN SIGN between two lower-case texts lower-cases to `k`, as Kotlin's
      `lowercase()` has it. */
  lemma KelvinSignLowered(before: string, after: string)
    requires NoUpper(before) && NoUpper(after)
    ensures ToLower(before + "\U{212A}" + after) == before + "k" + after
  {
    ToLowerConcat(before + "\U{212A}", after);
    ToLowerConcat(before, "\U{212A}");
    LowerOfNoUpper(before);
    LowerOfNoUpper(after);
  }

  /** Lower-casing twice is lower-casing once. */
  lemma {:induction false} LowerIdempotent(s: string)
    ensures ToLower(ToLower(s)) == ToLower(s)
  {
    if s != [] {
      var head := LowerText(s[0]);
      assert NoUpper(head);
      LowerOfNoUpper(head);
      ToLowerConcat(head, ToLower(s[1..]));
      LowerIdempotent(s[1..]);
    }
  }

  /** Kotlin `replace(from, to)` for a single character. */
  function ReplaceChar(s: string, from: char, to: char): (r: string)
    ensures |r| == |s|
    ensures forall i :: 0 <= i < |s| ==> r[i] == if s[i] == from then to else s[i]
  {
    if s == [] then [] else [if s[0] == from then to else s[0]] + ReplaceChar(s[1..], from, to)
  }

  /** Kotlin `joinToString(separator)`. */
  function Join(parts: seq<string>, sep: string): string {
    if parts == [] then ""
    else if |parts| == 1 then parts[0]
    else parts[0] + sep + Join(parts[1..], sep)
  }

  predicate IsDigit(c: char) { '0' <= c <= '9' }

  function DigitChar(d: nat): char
    requires d < 10
  {
    ('0' as int + d) as char
  }

  function DigitValue(c: char): nat
    requires IsDigit(c)
  {
    c as int - '0' as int
  }

  predicate AllDigits(s: string) {
    forall i :: 0 <= i < |s| ==> IsDigit(s[i])
  }

  /** The value of a string of decimal digits, most significant first. */
  function DigitsValue(s: string): nat
    requires AllDigits(s)
  {
    if s == [] then 0 else DigitsValue(s[..|s| - 1]) * 10 + DigitValue(s[|s| - 1])
  }

  /** Decimal text of a natural number, as `toString` writes it. */
  function NatToString(n: nat): (r: string)
    ensures |r| >= 1 && AllDigits(r)
  {
    if n < 10 then [DigitChar(n)] else NatToString(n / 10) + [DigitChar(n % 10)]
  }

  /** Decimal text of an integer, as Kotlin's string templates write it. */
  function IntToString(i: int): string {
    if i < 0 then "-" + NatToString(-i) else NatToString(i)
  }

  /** Reading back a number's decimal text gives the number. */
  lemma {:induction false} NatToStringValue(n: nat)
    ensures DigitsValue(NatToString(n)) == n
  {
    if n >= 10 {
      NatToStringValue(n / 10);
      var s := NatToString(n);
      assert s[..|s| - 1] == NatToString(n / 10);
    }
  }
}
