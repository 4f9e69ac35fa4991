/**
 * The small part of Kotlin's and Java's string library that the receipt layout relies on:
 * the field padding of `String.format` (`%-ws`, `%ws`, `%-wd`), `String.repeat`, `String.trim`,
 * `startsWith` and the decimal rendering of an `Int`. Strings are sequences of characters;
 * a character here is one Unicode scalar value, where Kotlin counts UTF-16 code units, so the
 * two lengths agree only on text inside the Basic Multilingual Plane.
 */
module KotlinText {
  import opened Sequences

  /**
   * Kotlin's `Char.isWhitespace()` on the JVM, which `String.trim()` uses: Java's
   * `Character.isWhitespace` (tab, line feed, vertical tab, form feed, carriage return,
   * the four separators U+001C..U+001F and the space separators other than no-break spaces)
   * together with `Character.isSpaceChar` (every space, line and paragraph separator,
   * no-break spaces included).
   */
  predicate IsWhitespace(c: char) {
    || c == ' '
    || '\t' <= c <= '\r'
    || '\U{1C}' <= c <= '\U{1F}'
    || c == '\U{A0}'
    || c == '\U{1680}'
    || '\U{2000}' <= c <= '\U{200A}'
    || c == '\U{2028}'
    || c == '\U{2029}'
    || c == '\U{202F}'
    || c == '\U{205F}'
    || c == '\U{3000}'
  }

  predicate AllWhitespace(s: string) {
    forall i | 0 <= i < |s| :: IsWhitespace(s[i])
  }

  /** No whitespace at either end (vacuously true of the empty string). */
  predicate Trimmed(s: string) {
    |s| > 0 ==> !IsWhitespace(s[0]) && !IsWhitespace(s[|s| - 1])
  }

  predicate StartsWith(s: string, prefix: string) {
    |prefix| <= |s| && s[..|prefix|] == prefix
  }

  predicate EndsWith(s: string, suffix: string) {
    |suffix| <= |s| && s[|s| - |suffix|..] == suffix
  }

  /** A string whose first character differs from a non-empty prefix's does not start with it. */
  lemma FirstCharRulesOut(s: string, prefix: string)
    requires |prefix| > 0 && (|s| == 0 || s[0] != prefix[0])
    ensures !StartsWith(s, prefix)
  {
    if |prefix| <= |s| {
      assert s[..|prefix|][0] == s[0];
    }
  }

  /** `c.toString().repeat(n)`. */
  function Repeat(c: char, n: nat): (r: string)
    ensures |r| == n
  {
    seq(n, _ => c)
  }

  /** Every character of `c` repeated is `c`. */
  lemma RepeatChars(c: char, n: nat)
    ensures forall i | 0 <= i < n :: Repeat(c, n)[i] == c
  {
  }

  function Spaces(n: nat): (r: string)
    ensures |r| == n
  {
    Repeat(' ', n)
  }

  /** Padding is whitespace, so `trim` removes it. */
  lemma SpacesAreWhitespace(n: nat)
    ensures AllWhitespace(Spaces(n))
  {
  }

  /** Kotlin's `s.repeat(n)` for a string of any length: `n` copies of `s`, one after the other. */
  function RepeatString(s: string, n: nat): (r: string)
    ensures |r| == n * |s|
  {
    if n == 0 then "" else s + RepeatString(s, n - 1)
  }

  /** Repeating a one-character string is repeating the character. */
  lemma {:induction false} RepeatStringOfChar(c: char, n: nat)
    ensures RepeatString([c], n) == Repeat(c, n)
  {
    if n > 0 {
      RepeatStringOfChar(c, n - 1);
      assert [c] + Repeat(c, n - 1) == Repeat(c, n);
    }
  }

  /** The `%-ws` conversion: `s` left-justified in a field of at least `w` characters. */
  function PadRight(s: string, w: nat): (r: string)
    ensures |r| == if |s| < w then w else |s|
  {
    if |s| < w then s + Spaces(w - |s|) else s
  }

  /** `%-ws` keeps the text at the start. */
  lemma PadRightPrefix(s: string, w: nat)
    ensures PadRight(s, w)[..|s|] == s
  {
  }

  /** `%ws` keeps the text at the end. */
  lemma PadLeftSuffix(s: string, w: nat)
    ensures PadLeft(s, w)[|PadLeft(s, w)| - |s|..] == s
  {
  }

  /** What `%-ws` adds is spaces, after the text. */
  lemma PadRightSpaces(s: string, w: nat)
    ensures PadRight(s, w)[|s|..] == Spaces(|PadRight(s, w)| - |s|)
  {
  }

  /** The `%ws` conversion: `s` right-justified in a field of at least `w` characters. */
  function PadLeft(s: string, w: nat): (r: string)
    ensures |r| == if |s| < w then w else |s|
  {
    if |s| < w then Spaces(w - |s|) + s else s
  }

  /** What `%ws` adds is spaces, before the text. */
  lemma PadLeftSpaces(s: string, w: nat)
    ensures PadLeft(s, w)[..|PadLeft(s, w)| - |s|] == Spaces(|PadLeft(s, w)| - |s|)
  {
  }

  /** A text right-justified in the columns just before `end` is what the first `end` characters end with. */
  lemma EndsWithRightJustified(row: string, end: nat, w: nat, s: string)
    requires w <= end <= |row| && |s| <= w
    requires row[end - w..end] == PadLeft(s, w)
    ensures EndsWith(row[..end], s)
    ensures end == |row| ==> EndsWith(row, s)
  {
    PadLeftSuffix(s, w);
    SuffixOfPrefix(row, end, end - |s|);
    SuffixOfSlice(row, end - w, end, w - |s|);
    assert row[..|row|] == row;
  }

  /** A text left-justified in the first `w` columns is what the row starts with. */
  lemma StartsWithLeftJustified(row: string, w: nat, s: string)
    requires |s| <= w <= |row|
    requires row[..w] == PadRight(s, w)
    ensures StartsWith(row, s)
  {
    PadRightPrefix(s, w);
    assert row[..|s|] == row[..w][..|s|];
  }

  /** The index of the first character at or after `from` that is not whitespace, or `|s|` when there is none. */
  function SkipWhitespace(s: string, from: nat): (i: nat)
    requires from <= |s|
    ensures from <= i <= |s|
    ensures i < |s| ==> !IsWhitespace(s[i])
    decreases |s| - from
  {
    if from < |s| && IsWhitespace(s[from]) then SkipWhitespace(s, from + 1) else from
  }

  /** Everything `SkipWhitespace` skips is whitespace. */
  lemma {:induction false} SkipWhitespaceSkipsOnlyWhitespace(s: string, from: nat)
    requires from <= |s|
    ensures forall k | from <= k < SkipWhitespace(s, from) :: IsWhitespace(s[k])
    decreases |s| - from
  {
    if from < |s| && IsWhitespace(s[from]) {
      SkipWhitespaceSkipsOnlyWhitespace(s, from + 1);
    }
  }

  /** The index just past the last character before `end` that is not whitespace, going no lower than `from`. */
  function SkipWhitespaceBack(s: string, from: nat, end: nat): (j: nat)
    requires from <= end <= |s|
    ensures from <= j <= end
    ensures j > from ==> !IsWhitespace(s[j - 1])
    decreases end
  {
    if end > from && IsWhitespace(s[end - 1]) then SkipWhitespaceBack(s, from, end - 1) else end
  }

  /** Everything `SkipWhitespaceBack` skips is whitespace. */
  lemma {:induction false} SkipWhitespaceBackSkipsOnlyWhitespace(s: string, from: nat, end: nat)
    requires from <= end <= |s|
    ensures forall k | SkipWhitespaceBack(s, from, end) <= k < end :: IsWhitespace(s[k])
    decreases end
  {
    if end > from && IsWhitespace(s[end - 1]) {
      SkipWhitespaceBackSkipsOnlyWhitespace(s, from, end - 1);
    }
  }

  /** Kotlin's `String.trim()`: no whitespace is left at either end. */
  function Trim(s: string): (r: string)
    ensures Trimmed(r)
    ensures |r| <= |s|
  {
    var i := SkipWhitespace(s, 0);
    var j := SkipWhitespaceBack(s, i, |s|);
    s[i..j]
  }

  /**
   * `trim` removes only whitespace, and only at the two ends: what it returns is an infix of `s`
   * with nothing but whitespace before and after it.
   */
  lemma TrimRemovesOnlyWhitespace(s: string)
    ensures var r := Trim(s);
      exists i | 0 <= i <= |s| - |r| :: r == s[i..i + |r|] && AllWhitespace(s[..i]) && AllWhitespace(s[i + |r|..])
  {
    var i := SkipWhitespace(s, 0);
    var j := SkipWhitespaceBack(s, i, |s|);
    SkipWhitespaceSkipsOnlyWhitespace(s, 0);
    SkipWhitespaceBackSkipsOnlyWhitespace(s, i, |s|);
    assert AllWhitespace(s[..i]) && AllWhitespace(s[j..]);
    assert Trim(s) == s[i..i + |Trim(s)|];
  }

  /** A string that already has no whitespace at either end is left as it is. */
  lemma TrimNoop(s: string)
    requires Trimmed(s)
    ensures Trim(s) == s
  {
  }

  /** Trimming twice is trimming once. */
  lemma TrimIdempotent(s: string)
    ensures Trim(Trim(s)) == Trim(s)
  {
    TrimNoop(Trim(s));
  }

  /** Trimming removes exactly the whitespace padding around a trimmed text. */
  lemma TrimPadded(pre: string, s: string, post: string)
    requires AllWhitespace(pre) && AllWhitespace(post)
    requires |s| > 0 && Trimmed(s)
    ensures Trim(pre + s + post) == s
  {
    var x := pre + s + post;
    SkipPadding(x, |pre|, 0);
    SkipPaddingBack(x, |pre|, |pre| + |s|, |x|);
    assert x[|pre|..|pre| + |s|] == s;
  }

  lemma {:induction false} SkipPadding(x: string, stop: nat, from: nat)
    requires from <= stop < |x| && !IsWhitespace(x[stop])
    requires forall k | from <= k < stop :: IsWhitespace(x[k])
    ensures SkipWhitespace(x, from) == stop
    decreases stop - from
  {
    if from < stop {
      SkipPadding(x, stop, from + 1);
    }
  }

  lemma {:induction false} SkipPaddingBack(x: string, from: nat, stop: nat, end: nat)
    requires from < stop <= end <= |x| && !IsWhitespace(x[stop - 1])
    requires forall k | stop <= k < end :: IsWhitespace(x[k])
    ensures SkipWhitespaceBack(x, from, end) == stop
    decreases end
  {
    if stop < end {
      SkipPaddingBack(x, from, stop, end - 1);
    }
  }

  function DigitChar(d: nat): (c: char)
    requires d < 10
    ensures '0' <= c <= '9'
  {
    ['0', '1', '2', '3', '4', '5', '6', '7', '8', '9'][d]
  }

  function DigitValue(c: char): nat
    requires '0' <= c <= '9'
  {
    c as int - '0' as int
  }

  predicate IsDigits(s: string) {
    forall i | 0 <= i < |s| :: '0' <= s[i] <= '9'
  }

  /** The decimal digits of `n`, most significant first, without leading zeros. */
  function NatToString(n: nat): (r: string)
    ensures |r| > 0 && IsDigits(r)
    ensures |r| > 1 ==> r[0] != '0'
  {
    if n < 10 then [DigitChar(n)] else NatToString(n / 10) + [DigitChar(n % 10)]
  }

  /** The value of a string of decimal digits. */
  function ParseDigits(s: string): nat
    requires IsDigits(s)
  {
    if s == [] then 0 else ParseDigits(s[..|s| - 1]) * 10 + DigitValue(s[|s| - 1])
  }

  /** Reading the digits back gives the number: the rendering loses nothing. */
  lemma {:induction false} NatToStringRoundTrip(n: nat)
    ensures ParseDigits(NatToString(n)) == n
  {
    var s := NatToString(n);
    if n >= 10 {
      NatToStringRoundTrip(n / 10);
      assert s[..|s| - 1] == NatToString(n / 10);
    }
  }

  function Pow10(k: nat): (p: nat)
    ensures p >= 1
  {
    if k == 0 then 1 else 10 * Pow10(k - 1)
  }

  /** A number below `10^k` needs at most `k` digits (and every number needs one). */
  lemma {:induction false} NatToStringLength(n: nat, k: nat)
    requires n < Pow10(k)
    ensures |NatToString(n)| <= if k == 0 then 1 else k
  {
    if n >= 10 {
      assert Pow10(0) == 1 && Pow10(1) == 10;
      NatToStringLength(n / 10, k - 1);
    }
  }

  /** Kotlin's `Int.toString()` and the `%d` conversion (ASCII digits, a leading minus sign). */
  function IntToString(n: int): (r: string)
    ensures |r| > 0 && (r[0] == '-' || '0' <= r[0] <= '9')
    ensures n >= 0 ==> r == NatToString(n)
    ensures n < 0 ==> r == "-" + NatToString(-n)
  {
    if n < 0 then "-" + NatToString(-n) else NatToString(n)
  }
}
