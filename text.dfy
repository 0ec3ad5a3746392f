/** The Python string and integer operations the charm relies on, written out
    over `seq<char>`: `str.isspace`, `str.strip()`, `str.split(' ')`,
    `' '.join`, `str.splitlines()`, `sub in s`, `int(s)` and `str(n)`. */
module Text {
  import opened Wrappers

  /** An ASCII decimal digit (what `\d` and `int` accept in this model). */
  predicate IsDigit(c: char) {
    '0' <= c <= '9'
  }

  /** Python's `str.isspace`, which is also the class `\s` matches in a `str` pattern. */
  predicate IsSpace(c: char) {
    || ('\t' <= c <= '\r')
    || ('\U{1C}' <= c <= '\U{1F}')
    || c == ' ' || c == '\U{85}' || c == '\U{A0}' || c == '\U{1680}'
    || ('\U{2000}' <= c <= '\U{200A}')
    || c == '\U{2028}' || c == '\U{2029}' || c == '\U{202F}' || c == '\U{205F}' || c == '\U{3000}'
  }

  /** A line boundary for `str.splitlines()`; `\r\n` counts as one boundary. */
  predicate IsLineBreak(c: char) {
    || ('\n' <= c <= '\r')
    || ('\U{1C}' <= c <= '\U{1E}')
    || c == '\U{85}' || c == '\U{2028}' || c == '\U{2029}'
  }

  /** Every character of `s` is a digit (recursive, so that it unfolds only
      where a proof asks for it). */
  predicate AllDigits(s: string) {
    s == [] || (IsDigit(s[0]) && AllDigits(s[1..]))
  }

  lemma {:induction false} AllDigitsAppend(a: string, b: string)
    ensures AllDigits(a + b) <==> AllDigits(a) && AllDigits(b)
    decreases |a|
  {
    if a == [] {
      assert a + b == b;
    } else {
      assert (a + b)[0] == a[0];
      assert (a + b)[1..] == a[1..] + b;
      AllDigitsAppend(a[1..], b);
    }
  }

  lemma SplitAt(s: string, k: nat)
    requires k <= |s|
    ensures s == s[..k] + s[k..]
  {
  }

  lemma PrefixAndRest(p: string, t: string)
    ensures (p + t)[..|p|] == p && (p + t)[|p|..] == t
  {
  }

  /** Dropping the prefix `p` from `p + t + rest` leaves `t + rest`. */
  lemma DropPrefix(p: string, t: string, rest: string)
    ensures (p + t + rest)[|p|..] == t + rest
  {
  }

  /** Length of the longest prefix of `s` made of digits (a greedy `\d*`). */
  function DigitRun(s: string): (n: nat)
    ensures n <= |s| && AllDigits(s[..n])
    ensures n < |s| ==> !IsDigit(s[n])
  {
    if s == [] || !IsDigit(s[0]) then 0
    else
      var k := DigitRun(s[1..]);
      assert s[..1 + k][1..] == s[1..][..k];
      1 + k
  }

  /** The greedy run stops exactly at the end of a block of digits. */
  lemma {:induction false} DigitRunOfDigits(d: string, rest: string)
    requires AllDigits(d)
    requires rest == [] || !IsDigit(rest[0])
    ensures DigitRun(d + rest) == |d|
    decreases |d|
  {
    if d == [] {
      assert d + rest == rest;
    } else {
      assert (d + rest)[0] == d[0];
      assert (d + rest)[1..] == d[1..] + rest;
      DigitRunOfDigits(d[1..], rest);
    }
  }

  // ---------------------------------------------------------------------------
  // str.strip()

  /** `s.lstrip()`: drops leading whitespace. */
  function StripLeft(s: string): (r: string)
    ensures |r| <= |s| && r == s[|s| - |r|..]
    ensures forall i | 0 <= i < |s| - |r| :: IsSpace(s[i])
    ensures r == [] || !IsSpace(r[0])
  {
    if s != [] && IsSpace(s[0]) then
      var r := StripLeft(s[1..]);
      assert forall i | 1 <= i < |s| :: s[i] == s[1..][i - 1];
      r
    else s
  }

  /** `s.rstrip()`: drops trailing whitespace. */
  function StripRight(s: string): (r: string)
    ensures |r| <= |s| && r == s[..|r|]
    ensures forall i | |r| <= i < |s| :: IsSpace(s[i])
    ensures r == [] || !IsSpace(r[|r| - 1])
  {
    if s != [] && IsSpace(s[|s| - 1]) then
      var r := StripRight(s[..|s| - 1]);
      assert forall i | 0 <= i < |s| - 1 :: s[i] == s[..|s| - 1][i];
      r
    else s
  }

  /** Python's `s.strip()`: `s` without its leading and trailing whitespace. */
  function Strip(s: string): (r: string)
    ensures r == [] || (!IsSpace(r[0]) && !IsSpace(r[|r| - 1]))
    ensures exists i, j | 0 <= i <= j <= |s| :: r == s[i..j]
  {
    var l := StripLeft(s);
    var r := StripRight(l);
    assert r == s[|s| - |l|..|s| - |l| + |r|];
    r
  }

  /** Stripping a string that neither starts nor ends with whitespace keeps it. */
  lemma StripKeeps(s: string)
    requires s == [] || (!IsSpace(s[0]) && !IsSpace(s[|s| - 1]))
    ensures Strip(s) == s
  {
    assert StripLeft(s) == s;
  }

  lemma StripIdempotent(s: string)
    ensures Strip(Strip(s)) == Strip(s)
  {
    StripKeeps(Strip(s));
  }

  // ---------------------------------------------------------------------------
  // str.split(sep) with a one-character separator, and sep.join

  /** Python's `s.split(sep)` for a one-character `sep`: never empty, and an
      empty string between two adjacent separators. */
  function Split(s: string, sep: char): (parts: seq<string>)
    ensures |parts| >= 1
    ensures forall i | 0 <= i < |parts| :: sep !in parts[i]
    decreases |s|
  {
    if s == [] then [""]
    else
      var rest := Split(s[1..], sep);
      if s[0] == sep then [""] + rest
      else [[s[0]] + rest[0]] + rest[1..]
  }

  /** Python's `sep.join(parts)`. */
  function Join(parts: seq<string>, sep: char): string
    decreases |parts|
  {
    if parts == [] then ""
    else if |parts| == 1 then parts[0]
    else parts[0] + [sep] + Join(parts[1..], sep)
  }

  /** Joining the pieces of a split with the same separator gives the text back. */
  lemma {:induction false} JoinSplit(s: string, sep: char)
    ensures Join(Split(s, sep), sep) == s
    decreases |s|
  {
    if s != [] {
      var rest := Split(s[1..], sep);
      JoinSplit(s[1..], sep);
      if s[0] == sep {
        assert Split(s, sep) == [""] + rest;
        assert ([""] + rest)[1..] == rest;
        assert Join(Split(s, sep), sep) == "" + [sep] + Join(rest, sep);
        assert s == [s[0]] + s[1..];
      } else {
        var parts := [[s[0]] + rest[0]] + rest[1..];
        assert Split(s, sep) == parts;
        if |rest| == 1 {
          assert Join(parts, sep) == [s[0]] + rest[0];
          assert s == [s[0]] + s[1..];
        } else {
          assert parts[1..] == rest[1..];
          assert Join(rest, sep) == rest[0] + [sep] + Join(rest[1..], sep);
          assert Join(parts, sep) == [s[0]] + rest[0] + [sep] + Join(rest[1..], sep);
          assert s == [s[0]] + s[1..];
        }
      }
    }
  }

  // ---------------------------------------------------------------------------
  // str.splitlines()

  /** `s` holds no line boundary. */
  predicate NoBreaks(s: string) {
    s == [] || (!IsLineBreak(s[0]) && NoBreaks(s[1..]))
  }

  /** Index of the first line boundary in `s`, or `|s|` when there is none. */
  function LineEnd(s: string): (i: nat)
    ensures i <= |s| && NoBreaks(s[..i])
    ensures i < |s| ==> IsLineBreak(s[i])
  {
    if s == [] || IsLineBreak(s[0]) then 0
    else
      var k := LineEnd(s[1..]);
      assert s[..1 + k][1..] == s[1..][..k];
      1 + k
  }

  /** Python's `s.splitlines()`: the lines of `s` without their boundaries; no
      trailing empty line for a final boundary, and none at all for "". */
  function SplitLines(s: string): (lines: seq<string>)
    ensures forall k | 0 <= k < |lines| :: NoBreaks(lines[k])
    decreases |s|
  {
    if s == [] then []
    else
      var i := LineEnd(s);
      if i == |s| then
        assert s[..i] == s;
        [s]
      else
        var width := if s[i] == '\r' && i + 1 < |s| && s[i + 1] == '\n' then 2 else 1;
        [s[..i]] + SplitLines(s[i + width..])
  }

  /** The characters of `s` that are not line boundaries, in order. */
  function WithoutBreaks(s: string): string {
    if s == [] then ""
    else (if IsLineBreak(s[0]) then "" else [s[0]]) + WithoutBreaks(s[1..])
  }

  function Concat(lines: seq<string>): string {
    if lines == [] then "" else lines[0] + Concat(lines[1..])
  }

  lemma {:induction false} WithoutBreaksAppend(a: string, b: string)
    ensures WithoutBreaks(a + b) == WithoutBreaks(a) + WithoutBreaks(b)
    decreases |a|
  {
    if a != [] {
      assert (a + b)[0] == a[0];
      assert (a + b)[1..] == a[1..] + b;
      WithoutBreaksAppend(a[1..], b);
    } else {
      assert a + b == b;
    }
  }

  lemma {:induction false} WithoutBreaksOfLine(s: string)
    requires NoBreaks(s)
    ensures WithoutBreaks(s) == s
    decreases |s|
  {
    if s != [] {
      WithoutBreaksOfLine(s[1..]);
    }
  }

  /** A boundary at `i` contributes nothing. */
  lemma WithoutBreaksSkip(s: string, i: nat)
    requires i < |s| && IsLineBreak(s[i])
    ensures WithoutBreaks(s[i..]) == WithoutBreaks(s[i + 1..])
  {
    assert s[i..][1..] == s[i + 1..];
  }

  /** A line and the boundary of `width` characters after it: what is left
      without boundaries is the line and then the rest. */
  lemma WithoutBreaksOfLineAndBreak(s: string, i: nat, width: nat)
    requires i + width <= |s| && NoBreaks(s[..i])
    requires width == 1 || width == 2
    requires IsLineBreak(s[i]) && (width == 2 ==> IsLineBreak(s[i + 1]))
    ensures WithoutBreaks(s) == s[..i] + WithoutBreaks(s[i + width..])
  {
    assert s == s[..i] + s[i..];
    WithoutBreaksAppend(s[..i], s[i..]);
    WithoutBreaksOfLine(s[..i]);
    WithoutBreaksSkip(s, i);
    if width == 2 {
      WithoutBreaksSkip(s, i + 1);
    }
  }

  /** No text is lost by `splitlines`: the lines together hold exactly the
      characters of `s` that are not line boundaries. */
  lemma {:induction false} SplitLinesKeepsText(s: string)
    ensures Concat(SplitLines(s)) == WithoutBreaks(s)
    decreases |s|
  {
    if s != [] {
      var i := LineEnd(s);
      if i == |s| {
        assert s[..i] == s;
        WithoutBreaksOfLine(s);
      } else {
        var width := if s[i] == '\r' && i + 1 < |s| && s[i + 1] == '\n' then 2 else 1;
        var rest := s[i + width..];
        SplitLinesKeepsText(rest);
        assert SplitLines(s) == [s[..i]] + SplitLines(rest);
        WithoutBreaksOfLineAndBreak(s, i, width);
      }
    }
  }

  /** Python's `sub in s` on strings. */
  predicate Contains(s: string, sub: string)
    decreases |s|
  {
    |sub| <= |s| && (s[..|sub|] == sub || Contains(s[1..], sub))
  }

  // ---------------------------------------------------------------------------
  // int(s) and str(n)

  function DigitValue(c: char): nat
    requires IsDigit(c)
  {
    (c as int) - ('0' as int)
  }

  function DigitChar(d: nat): (c: char)
    requires d < 10
    ensures IsDigit(c) && DigitValue(c) == d
  {
    (('0' as int) + d) as char
  }

  /** The number a string of decimal digits denotes ("" denotes 0). */
  function NatValue(s: string): nat
    requires AllDigits(s)
    decreases |s|
  {
    if s == [] then 0
    else
      assert s == s[..|s| - 1] + [s[|s| - 1]];
      AllDigitsAppend(s[..|s| - 1], [s[|s| - 1]]);
      10 * NatValue(s[..|s| - 1]) + DigitValue(s[|s| - 1])
  }

  /** Python's `str(n)` for `n >= 0`: decimal digits without leading zeros. */
  function NatText(n: nat): (s: string)
    ensures |s| > 0 && AllDigits(s)
  {
    if n < 10 then [DigitChar(n)]
    else
      AllDigitsAppend(NatText(n / 10), [DigitChar(n % 10)]);
      NatText(n / 10) + [DigitChar(n % 10)]
  }

  lemma {:induction false} NatValueOfText(n: nat)
    ensures NatValue(NatText(n)) == n
  {
    if n >= 10 {
      var s := NatText(n);
      assert s[..|s| - 1] == NatText(n / 10);
      NatValueOfText(n / 10);
    }
  }

  /** Python's `str(n)`. */
  function IntText(n: int): (s: string)
    ensures |s| > 0
  {
    if n < 0 then "-" + NatText(-n) else NatText(n)
  }

  /** Python's `int(s)` in base 10: optional surrounding whitespace, an
      optional sign and one or more digits; None where Python raises
      ValueError. */
  function ParseInt(s: string): (r: Option<int>)
    ensures r.Some? ==> Strip(s) != []
  {
    var t := Strip(s);
    if t == [] then None
    else if t[0] == '-' || t[0] == '+' then
      if |t| > 1 && AllDigits(t[1..]) then
        var v: int := NatValue(t[1..]);
        Some(if t[0] == '-' then -v else v)
      else None
    else if AllDigits(t) then Some(NatValue(t))
    else None
  }

  /** `int(str(n)) == n`. */
  lemma ParseIntText(n: int)
    ensures ParseInt(IntText(n)) == Some(n)
  {
    var s := IntText(n);
    var d := NatText(if n < 0 then -n else n);
    assert s[|s| - 1] == d[|d| - 1];
    StripKeeps(s);
    NatValueOfText(if n < 0 then -n else n);
    if n < 0 {
      assert s[1..] == d;
    }
  }
}
