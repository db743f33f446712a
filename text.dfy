/** The .NET string operations the services rely on: `String.Split(char)`, `StartsWith(char)`,
    `string.IsNullOrEmpty`, `string.IsNullOrWhiteSpace`, and fixed-width decimal digits.
    A C# `null` string never reaches these call sites except in `IsNullOrWhiteSpace`, where it
    behaves exactly like `""`; strings here are therefore never null. */
module Text {

  /** Number of occurrences of `c` in `s`. */
  function Occurrences(s: string, c: char): nat
  {
    if s == [] then 0 else (if s[0] == c then 1 else 0) + Occurrences(s[1..], c)
  }

  /** The parts glued back together with the separator between neighbours. */
  function Join(parts: seq<string>, sep: char): string
  {
    if |parts| == 0 then ""
    else if |parts| == 1 then parts[0]
    else parts[0] + [sep] + Join(parts[1..], sep)
  }

  /** `s.Split(sep)`: one part more than there are separators, empty parts kept,
      no part contains the separator, and joining the parts gives `s` back. */
  function Split(s: string, sep: char): (parts: seq<string>)
    ensures |parts| == Occurrences(s, sep) + 1
    ensures forall i :: 0 <= i < |parts| ==> sep !in parts[i]
    ensures Join(parts, sep) == s
  {
    if s == [] then [""]
    else
      var rest := Split(s[1..], sep);
      if s[0] == sep then
        assert ([""] + rest)[1..] == rest;
        [""] + rest
      else
        var parts := [[s[0]] + rest[0]] + rest[1..];
        assert parts[1..] == rest[1..];
        assert s == [s[0]] + s[1..];
        parts
  }

  lemma {:induction false} SplitWithoutSeparator(s: string, sep: char)
    requires sep !in s
    ensures Split(s, sep) == [s]
  {
    if s != [] {
      assert sep !in s[1..];
      SplitWithoutSeparator(s[1..], sep);
    }
  }

  /** Splitting at one separator splits the two sides independently. */
  lemma {:induction false} SplitAtSeparator(a: string, b: string, sep: char)
    ensures Split(a + [sep] + b, sep) == Split(a, sep) + Split(b, sep)
  {
    if a == [] {
      assert a + [sep] + b == [sep] + b;
      assert ([sep] + b)[1..] == b;
    } else {
      assert (a + [sep] + b)[0] == a[0];
      assert (a + [sep] + b)[1..] == a[1..] + [sep] + b;
      SplitAtSeparator(a[1..], b, sep);
    }
  }

  /** Split is the inverse of Join on parts that do not contain the separator. */
  lemma {:induction false} SplitJoin(parts: seq<string>, sep: char)
    requires |parts| >= 1
    requires forall i :: 0 <= i < |parts| ==> sep !in parts[i]
    ensures Split(Join(parts, sep), sep) == parts
  {
    if |parts| == 1 {
      SplitWithoutSeparator(parts[0], sep);
    } else {
      SplitWithoutSeparator(parts[0], sep);
      SplitJoin(parts[1..], sep);
      SplitAtSeparator(parts[0], Join(parts[1..], sep), sep);
      assert [parts[0]] + parts[1..] == parts;
    }
  }

  /** A character absent from the text is absent from every part. */
  lemma {:induction false} SplitKeepsAbsent(s: string, sep: char, c: char)
    requires c !in s
    ensures forall i :: 0 <= i < |Split(s, sep)| ==> c !in Split(s, sep)[i]
  {
    if s != [] {
      assert c !in s[1..];
      SplitKeepsAbsent(s[1..], sep, c);
    }
  }

  /** The text before the first `c` and the text after it (all of `s` and "" when `c` does
      not occur). */
  function Cut(s: string, c: char): (pair: (string, string))
    ensures c !in pair.0
    ensures c in s ==> s == pair.0 + [c] + pair.1
    ensures c !in s ==> pair == (s, "")
  {
    if s == [] then ("", "")
    else if s[0] == c then
      assert s == [] + [c] + s[1..];
      ("", s[1..])
    else
      var rest := Cut(s[1..], c);
      assert c in s ==> c in s[1..];
      assert c !in s ==> c !in s[1..];
      assert s == [s[0]] + s[1..];
      ([s[0]] + rest.0, rest.1)
  }

  /** Cutting at a separator that the front part does not contain. */
  lemma {:induction false} CutAt(a: string, b: string, c: char)
    requires c !in a
    ensures Cut(a + [c] + b, c) == (a, b)
  {
    if a == [] {
      assert a + [c] + b == [c] + b;
      assert ([c] + b)[1..] == b;
    } else {
      assert (a + [c] + b)[0] == a[0];
      assert (a + [c] + b)[1..] == a[1..] + [c] + b;
      assert c !in a[1..];
      CutAt(a[1..], b, c);
      assert [a[0]] + a[1..] == a;
    }
  }

  /** `s.StartsWith(c)` for a char argument: an ordinal test of the first character. */
  predicate StartsWith(s: string, c: char)
  {
    |s| > 0 && s[0] == c
  }

  /** `string.IsNullOrEmpty` on a non-null string. */
  predicate IsNullOrEmpty(s: string)
  {
    |s| == 0
  }

  /** `char.IsWhiteSpace`: the Unicode space, line and paragraph separators together with
      U+0009..U+000D and U+0085. */
  predicate IsWhiteSpace(c: char)
  {
    var n := c as int;
    (0x09 <= n <= 0x0D) || n == 0x20 || n == 0x85 || n == 0xA0 || n == 0x1680
    || (0x2000 <= n <= 0x200A) || n == 0x2028 || n == 0x2029 || n == 0x202F
    || n == 0x205F || n == 0x3000
  }

  /** `string.IsNullOrWhiteSpace`: every character is white space (vacuously so for ""). */
  predicate IsNullOrWhiteSpace(s: string)
  {
    forall i :: 0 <= i < |s| ==> IsWhiteSpace(s[i])
  }

  // ---------------------------------------------------------------------------------------
  // Fixed-width decimal digits, as written by the custom date format specifiers and read
  // back by the date parser.

  predicate IsDigit(c: char)
  {
    '0' <= c <= '9'
  }

  predicate IsDigits(s: string)
  {
    forall i :: 0 <= i < |s| ==> IsDigit(s[i])
  }

  function Pow10(n: nat): (r: nat)
    ensures r >= 1
  {
    if n == 0 then 1 else 10 * Pow10(n - 1)
  }

  /** The value of a string of decimal digits. */
  function DigitsValue(s: string): nat
    requires IsDigits(s)
  {
    if s == [] then 0
    else DigitsValue(s[..|s| - 1]) * 10 + (s[|s| - 1] as int - '0' as int)
  }

  /** `n` written with exactly `width` digits, padded with leading zeros (the low
      `width` digits when `n` is wider). */
  function FormatDigits(n: nat, width: nat): (s: string)
    ensures |s| == width && IsDigits(s)
  {
    if width == 0 then ""
    else FormatDigits(n / 10, width - 1) + [(('0' as int) + n % 10) as char]
  }

  lemma {:induction false} DigitsValueBound(s: string)
    requires IsDigits(s)
    ensures DigitsValue(s) < Pow10(|s|)
  {
    if s != [] {
      DigitsValueBound(s[..|s| - 1]);
    }
  }

  /** Reading back what FormatDigits wrote gives the number, when it fits the width. */
  lemma {:induction false} DigitsValueOfFormat(n: nat, width: nat)
    requires n < Pow10(width)
    ensures DigitsValue(FormatDigits(n, width)) == n
  {
    if width > 0 {
      DigitsValueOfFormat(n / 10, width - 1);
      var s := FormatDigits(n, width);
      assert s[..|s| - 1] == FormatDigits(n / 10, width - 1);
    }
  }

  /** Writing back what DigitsValue read gives the digit string itself. */
  lemma {:induction false} FormatOfDigitsValue(s: string)
    requires IsDigits(s)
    ensures FormatDigits(DigitsValue(s), |s|) == s
  {
    if s != [] {
      var init := s[..|s| - 1];
      FormatOfDigitsValue(init);
      var v := DigitsValue(s);
      assert v / 10 == DigitsValue(init);
      assert v % 10 == s[|s| - 1] as int - '0' as int;
      assert s == init + [s[|s| - 1]];
    }
  }
}
