/**
 * The string operations the core relies on: Python's `str.count` for one
 * character, JavaScript's `String.prototype.split` with a one-character
 * separator, SQL `LIKE '%needle%'` as a substring test, code-point order on
 * strings, and Python's `str(int)`.
 */
module Strings {
  import opened Wrappers

  /** `s.count(c)` for a single character `c`. */
  function CountChar(s: string, c: char): (n: nat)
    ensures n <= |s|
    ensures n == 0 <==> c !in s
  {
    if s == [] then 0 else (if s[0] == c then 1 else 0) + CountChar(s[1..], c)
  }

  /**
   * `s.split(sep)` in JavaScript for a one-character separator: the pieces
   * between separators, always at least one (`"".split('.')` is `[""]`).
   */
  function Split(s: string, sep: char): (parts: seq<string>)
    ensures |parts| == CountChar(s, sep) + 1
    ensures forall i :: 0 <= i < |parts| ==> sep !in parts[i]
  {
    if s == [] then [""]
    else
      var rest := Split(s[1..], sep);
      if s[0] == sep then [""] + rest
      else [[s[0]] + rest[0]] + rest[1..]
  }

  /** `parts.join(sep)`, the inverse of `Split`. */
  function Join(parts: seq<string>, sep: char): string
    requires |parts| >= 1
  {
    if |parts| == 1 then parts[0] else parts[0] + [sep] + Join(parts[1..], sep)
  }

  lemma {:induction false} JoinSplit(s: string, sep: char)
    ensures Join(Split(s, sep), sep) == s
  {
    if s != [] {
      var rest := Split(s[1..], sep);
      JoinSplit(s[1..], sep);
      if s[0] == sep {
        assert Split(s, sep) == [""] + rest;
        assert ([""] + rest)[1..] == rest;
      } else {
        var parts := [[s[0]] + rest[0]] + rest[1..];
        assert Split(s, sep) == parts;
        if |rest| == 1 {
          assert Join(parts, sep) == [s[0]] + rest[0];
        } else {
          assert parts[1..] == rest[1..];
          assert Join(rest, sep) == rest[0] + [sep] + Join(rest[1..], sep);
          assert Join(parts, sep) == [s[0]] + rest[0] + [sep] + Join(rest[1..], sep);
        }
      }
    }
  }

  lemma {:induction false} SplitJoin(parts: seq<string>, sep: char)
    requires |parts| >= 1
    requires forall i :: 0 <= i < |parts| ==> sep !in parts[i]
    ensures Split(Join(parts, sep), sep) == parts
  {
    if |parts| == 1 {
      SplitNoSeparator(parts[0], sep);
    } else {
      SplitJoin(parts[1..], sep);
      SplitAfterPiece(parts[0], Join(parts[1..], sep), sep);
      assert Join(parts, sep) == parts[0] + ([sep] + Join(parts[1..], sep));
      assert [parts[0]] + parts[1..] == parts;
    }
  }

  /** A string without the separator splits into itself alone. */
  lemma {:induction false} SplitNoSeparator(s: string, sep: char)
    requires sep !in s
    ensures Split(s, sep) == [s]
  {
    if s != [] {
      SplitNoSeparator(s[1..], sep);
      assert [s[0]] + s[1..] == s;
    }
  }

  /** Splitting `piece + [sep] + tail` yields `piece` followed by the pieces of `tail`. */
  lemma {:induction false} SplitAfterPiece(piece: string, tail: string, sep: char)
    requires sep !in piece
    ensures Split(piece + ([sep] + tail), sep) == [piece] + Split(tail, sep)
  {
    var s := piece + ([sep] + tail);
    if piece == [] {
      assert s == [sep] + tail;
      assert s[1..] == tail;
    } else {
      assert s[1..] == piece[1..] + ([sep] + tail);
      SplitAfterPiece(piece[1..], tail, sep);
      assert [piece[0]] + piece[1..] == piece;
    }
  }

  /** SQL `text LIKE '%needle%'`, read as a plain substring test. */
  predicate Contains(text: string, needle: string) {
    needle <= text || (text != [] && Contains(text[1..], needle))
  }

  /** `needle` occurs in `text` starting at position `k`. */
  predicate OccursAt(text: string, needle: string, k: int) {
    0 <= k <= |text| - |needle| && text[k..k + |needle|] == needle
  }

  lemma {:induction false} ContainsAt(text: string, needle: string)
    ensures Contains(text, needle) <==> exists k :: OccursAt(text, needle, k)
  {
    if text == [] {
      if needle <= text {
        assert OccursAt(text, needle, 0);
      }
      if exists k :: OccursAt(text, needle, k) {
        var k :| OccursAt(text, needle, k);
        assert needle == [];
      }
    } else {
      ContainsAt(text[1..], needle);
      if needle <= text {
        assert OccursAt(text, needle, 0);
      }
      forall k | OccursAt(text[1..], needle, k)
        ensures OccursAt(text, needle, k + 1)
      {
        assert text[k + 1..k + 1 + |needle|] == text[1..][k..k + |needle|];
      }
      forall k | OccursAt(text, needle, k) && k != 0
        ensures OccursAt(text[1..], needle, k - 1)
      {
        assert text[1..][k - 1..k - 1 + |needle|] == text[k..k + |needle|];
      }
    }
  }

  /** Code-point (binary) order on strings, the order of a `C` collation. */
  predicate LexLess(a: string, b: string) {
    if a == [] then b != []
    else if b == [] then false
    else if a[0] != b[0] then a[0] < b[0]
    else LexLess(a[1..], b[1..])
  }

  lemma {:induction false} LexLessIrreflexive(a: string)
    ensures !LexLess(a, a)
  {
    if a != [] {
      LexLessIrreflexive(a[1..]);
    }
  }

  lemma {:induction false} LexLessTransitive(a: string, b: string, c: string)
    requires LexLess(a, b) && LexLess(b, c)
    ensures LexLess(a, c)
  {
    if a != [] && b != [] && c != [] && a[0] == b[0] && b[0] == c[0] {
      LexLessTransitive(a[1..], b[1..], c[1..]);
    }
  }

  lemma {:induction false} LexLessTotal(a: string, b: string)
    requires a != b
    ensures LexLess(a, b) || LexLess(b, a)
  {
    if a != [] && b != [] && a[0] == b[0] {
      assert a == [a[0]] + a[1..] && b == [b[0]] + b[1..];
      LexLessTotal(a[1..], b[1..]);
    }
  }

  /** The decimal digit character of `d`. */
  function DigitChar(d: nat): (c: char)
    requires d < 10
    ensures '0' <= c <= '9'
  {
    ('0' as int + d) as char
  }

  predicate IsDigit(c: char) {
    '0' <= c <= '9'
  }

  function DigitValue(c: char): (d: nat)
    requires IsDigit(c)
    ensures d < 10 && DigitChar(d) == c
  {
    c as int - '0' as int
  }

  /** The decimal form of a natural number, without leading zeros. */
  function NatToDecimal(n: nat): (s: string)
    ensures |s| >= 1
    ensures forall i :: 0 <= i < |s| ==> IsDigit(s[i])
    ensures |s| > 1 ==> s[0] != '0'
    ensures n > 0 ==> s[0] != '0'
  {
    if n < 10 then [DigitChar(n)] else NatToDecimal(n / 10) + [DigitChar(n % 10)]
  }

  /** Python's `str(n)` for an `int`. */
  function IntToDecimal(n: int): (s: string)
    ensures |s| >= 1
    ensures s[0] == '-' <==> n < 0
  {
    if n < 0 then "-" + NatToDecimal(-n) else NatToDecimal(n)
  }

  /** A numeral as `str` writes it: digits only, and no leading zero unless it is `0`. */
  predicate CanonicalDigits(s: string) {
    && |s| >= 1
    && (forall i :: 0 <= i < |s| ==> IsDigit(s[i]))
    && (|s| > 1 ==> s[0] != '0')
  }

  function DecimalToNat(s: string): nat
    requires forall i :: 0 <= i < |s| ==> IsDigit(s[i])
  {
    if s == [] then 0 else DecimalToNat(s[..|s| - 1]) * 10 + DigitValue(s[|s| - 1])
  }

  /**
   * Reads back what `IntToDecimal` writes; `None` for every other string,
   * including numerals with a leading zero and `-0`.
   */
  function DecimalToInt(s: string): Option<int> {
    if |s| >= 2 && s[0] == '-' && CanonicalDigits(s[1..]) && s[1] != '0' then
      var magnitude: int := DecimalToNat(s[1..]);
      Some(-magnitude)
    else if CanonicalDigits(s) then
      Some(DecimalToNat(s))
    else None
  }

  lemma {:induction false} DecimalNatRoundTrip(n: nat)
    ensures DecimalToNat(NatToDecimal(n)) == n
  {
    if n >= 10 {
      var s := NatToDecimal(n);
      DecimalNatRoundTrip(n / 10);
      assert s[..|s| - 1] == NatToDecimal(n / 10);
    }
  }

  lemma {:induction false} DecimalToNatPositive(s: string)
    requires forall i :: 0 <= i < |s| ==> IsDigit(s[i])
    requires |s| >= 1 && s[0] != '0'
    ensures DecimalToNat(s) >= 1
  {
    if |s| > 1 {
      DecimalToNatPositive(s[..|s| - 1]);
    }
  }

  /** A canonical numeral is the decimal form of its value. */
  lemma {:induction false} CanonicalNatRoundTrip(s: string)
    requires CanonicalDigits(s)
    ensures NatToDecimal(DecimalToNat(s)) == s
  {
    if |s| > 1 {
      var init := s[..|s| - 1];
      assert CanonicalDigits(init);
      CanonicalNatRoundTrip(init);
      DecimalToNatPositive(init);
      var n := DecimalToNat(s);
      assert n / 10 == DecimalToNat(init) && n % 10 == DigitValue(s[|s| - 1]);
      assert s == init + [s[|s| - 1]];
    }
  }

  /** Only `str(n)` reads back to `n`: the numeral of a number is unique. */
  lemma DecimalCanonical(s: string, n: int)
    requires DecimalToInt(s) == Some(n)
    ensures s == IntToDecimal(n)
  {
    if |s| >= 2 && s[0] == '-' && CanonicalDigits(s[1..]) && s[1] != '0' {
      CanonicalNatRoundTrip(s[1..]);
      DecimalToNatPositive(s[1..]);
      assert s == "-" + s[1..];
    } else {
      CanonicalNatRoundTrip(s);
    }
  }

  lemma DecimalRoundTrip(n: int)
    ensures DecimalToInt(IntToDecimal(n)) == Some(n)
  {
    var s := IntToDecimal(n);
    if n < 0 {
      assert s[1..] == NatToDecimal(-n);
      DecimalNatRoundTrip(-n);
    } else {
      DecimalNatRoundTrip(n);
    }
  }
}
