/**
 * Strings and the few Python string operations the invoice parser relies on:
 * character classes, maximal runs, `str.strip`, `str.splitlines`, `sep.join`,
 * `replace(",", "")`, `in` on strings, `Path(...).name` and decimal numerals.
 */
module Text {

  // ---------------------------------------------------------------------------
  // Character classes
  // ---------------------------------------------------------------------------

  /** ASCII decimal digit, the model of `\d` and `[0-9]`. */
  predicate IsDigit(c: char) { '0' <= c <= '9' }

  predicate IsUpper(c: char) { 'A' <= c <= 'Z' }

  predicate IsLowerLetter(c: char) { 'a' <= c <= 'z' }

  /** `[A-Za-z]` */
  predicate IsAlpha(c: char) { IsUpper(c) || IsLowerLetter(c) }

  /** `\w` restricted to ASCII: letters, digits and the underscore. */
  predicate IsWord(c: char) { IsAlpha(c) || IsDigit(c) || c == '_' }

  /**
   * Python's `str.isspace()`; in a `str` pattern `\s` matches exactly these
   * characters, and `str.strip()` without argument removes them.
   */
  predicate IsSpace(c: char) {
    c == ' ' || ('\t' <= c <= '\r') || ('\U{1C}' <= c <= '\U{1F}')
    || c == '\U{85}' || c == '\U{A0}' || c == '\U{1680}'
    || ('\U{2000}' <= c <= '\U{200A}') || c == '\U{2028}' || c == '\U{2029}'
    || c == '\U{202F}' || c == '\U{205F}' || c == '\U{3000}'
  }

  predicate NotSpace(c: char) { !IsSpace(c) }

  /** The characters at which `str.splitlines()` ends a line (`\r\n` counts once). */
  predicate IsLineBreak(c: char) {
    c == '\n' || c == '\r' || c == '\U{0B}' || c == '\U{0C}'
    || c == '\U{1C}' || c == '\U{1D}' || c == '\U{1E}' || c == '\U{85}'
    || c == '\U{2028}' || c == '\U{2029}'
  }

  predicate NotLineBreak(c: char) { !IsLineBreak(c) }

  /** What `.` matches without DOTALL: anything but a newline. */
  predicate NotNewline(c: char) { c != '\n' }

  /** ASCII case folding, the model of IGNORECASE. */
  function Lower(c: char): (r: char)
    ensures IsUpper(c) ==> IsLowerLetter(r) && r as int == c as int + 32
    ensures !IsUpper(c) ==> r == c
  {
    if IsUpper(c) then (c as int + 32) as char else c
  }

  // ---------------------------------------------------------------------------
  // Runs and literals
  // ---------------------------------------------------------------------------

  /** Every character of `s[lo..hi]` is in class `P`. */
  predicate AllIn(s: string, lo: nat, hi: nat, P: char -> bool) {
    lo <= hi <= |s| && forall k | lo <= k < hi :: P(s[k])
  }

  /** A run of class `P` stays one once cut out. */
  lemma SliceAllIn(s: string, lo: nat, hi: nat, P: char -> bool)
    requires AllIn(s, lo, hi, P)
    ensures AllIn(s[lo..hi], 0, hi - lo, P)
  {
    assert forall k | 0 <= k < hi - lo :: s[lo..hi][k] == s[lo + k];
  }

  /**
   * The end of the longest run of class `P` that starts at `i`: how a greedy
   * quantifier over a character class consumes input when the next element of
   * the pattern cannot match a character of that class.
   */
  function Span(s: string, i: nat, P: char -> bool): (j: nat)
    requires i <= |s|
    ensures i <= j <= |s|
    decreases |s| - i
  {
    if i < |s| && P(s[i]) then Span(s, i + 1, P) else i
  }

  /** `Span` ends a run of `P` that cannot be extended. */
  lemma {:induction false} SpanRun(s: string, i: nat, P: char -> bool)
    requires i <= |s|
    ensures AllIn(s, i, Span(s, i, P), P)
    ensures Span(s, i, P) < |s| ==> !P(s[Span(s, i, P)])
    decreases |s| - i
  {
    if i < |s| && P(s[i]) {
      SpanRun(s, i + 1, P);
    }
  }

  /** A run of `P` that cannot be extended is the one `Span` finds. */
  lemma SpanUnique(s: string, i: nat, j: nat, P: char -> bool)
    requires i <= j <= |s| && AllIn(s, i, j, P) && (j < |s| ==> !P(s[j]))
    ensures Span(s, i, P) == j
    decreases j - i
  {
    if i < j {
      SpanUnique(s, i + 1, j, P);
    }
  }

  /** A run of `P` from `i` ends no later than the maximal one. */
  lemma RunWithin(s: string, i: nat, j: nat, P: char -> bool)
    requires i <= |s| && AllIn(s, i, j, P)
    ensures j <= Span(s, i, P)
    decreases j - i
  {
    if i < j {
      RunWithin(s, i + 1, j, P);
    }
  }

  /**
   * A run of `P` from `i` followed by a character outside `P` is the maximal
   * run: the situation a greedy quantifier is in when the next element of
   * the pattern begins with a character it cannot consume.
   */
  lemma RunStops(s: string, i: nat, j: nat, P: char -> bool)
    requires AllIn(s, i, j, P) && j < |s| && !P(s[j])
    ensures Span(s, i, P) == j
  {
    SpanUnique(s, i, j, P);
  }

  /** Starting anywhere inside a run ends the run at the same place. */
  lemma SpanFromInside(s: string, i: nat, k: nat, P: char -> bool)
    requires i <= |s| && i <= k <= Span(s, i, P)
    ensures Span(s, k, P) == Span(s, i, P)
  {
    SpanRun(s, i, P);
    SpanUnique(s, k, Span(s, i, P), P);
  }

  /** `s[i..]` starts with `lit`. */
  predicate LitAt(s: string, i: nat, lit: string) {
    i + |lit| <= |s| && s[i..i + |lit|] == lit
  }

  /** `s[i..]` starts with `lit` up to ASCII case (IGNORECASE); `lit` is given in lower case. */
  predicate LitAtCI(s: string, i: nat, lit: string) {
    i + |lit| <= |s| && forall k | 0 <= k < |lit| :: Lower(s[i + k]) == lit[k]
  }

  // ---------------------------------------------------------------------------
  // Substring search (`lit in s`)
  // ---------------------------------------------------------------------------

  /** The index of the first occurrence of `lit` at or after `from`. */
  function IndexOf(s: string, lit: string, from: nat): (r: int)
    requires from <= |s| + 1
    ensures r == -1 || from <= r <= |s|
    ensures r >= 0 ==> LitAt(s, r, lit)
    ensures r >= 0 ==> forall p | from <= p < r :: !LitAt(s, p, lit)
    ensures r == -1 ==> forall p | from <= p :: !LitAt(s, p, lit)
    decreases |s| + 1 - from
  {
    if from > |s| then -1
    else if LitAt(s, from, lit) then from
    else IndexOf(s, lit, from + 1)
  }

  /** Python's `lit in s`. */
  predicate Contains(s: string, lit: string) {
    IndexOf(s, lit, 0) >= 0
  }

  lemma ContainsIff(s: string, lit: string)
    ensures Contains(s, lit) <==> exists p: nat :: LitAt(s, p, lit)
  {
    if exists p: nat :: LitAt(s, p, lit) {
      var p: nat :| LitAt(s, p, lit);
      assert p <= |s|;
    }
  }

  /** Occurrences survive appending text on either side. */
  lemma ContainsConcat(a: string, b: string, lit: string)
    ensures Contains(a, lit) ==> Contains(a + b, lit)
    ensures Contains(b, lit) ==> Contains(a + b, lit)
  {
    ContainsIff(a, lit);
    ContainsIff(b, lit);
    ContainsIff(a + b, lit);
    if Contains(a, lit) {
      var p: nat :| LitAt(a, p, lit);
      assert (a + b)[p..p + |lit|] == a[p..p + |lit|];
      assert LitAt(a + b, p, lit);
    }
    if Contains(b, lit) {
      var p: nat :| LitAt(b, p, lit);
      assert (a + b)[|a| + p..|a| + p + |lit|] == b[p..p + |lit|];
      assert LitAt(a + b, |a| + p, lit);
    }
  }

  // ---------------------------------------------------------------------------
  // strip, splitlines, join, replace
  // ---------------------------------------------------------------------------

  /** Where `s.strip()` ends: just after the last non-whitespace character. */
  function TrimEnd(s: string): (hi: nat)
    ensures hi <= |s|
    ensures AllIn(s, hi, |s|, IsSpace)
    ensures hi > 0 ==> !IsSpace(s[hi - 1])
  {
    if s != [] && IsSpace(s[|s| - 1]) then
      var h := TrimEnd(s[..|s| - 1]);
      assert forall k | h <= k < |s| - 1 :: s[k] == s[..|s| - 1][k];
      h
    else |s|
  }

  /** Neither the first nor the last character is whitespace: what `strip` leaves. */
  predicate Stripped(s: string) {
    s != [] ==> !IsSpace(s[0]) && !IsSpace(s[|s| - 1])
  }

  /** Python's `s.strip()`. */
  function Strip(s: string): (r: string)
    ensures |r| <= |s|
    ensures Stripped(r)
    ensures r == [] <==> AllIn(s, 0, |s|, IsSpace)
  {
    var lo := Span(s, 0, IsSpace);
    SpanRun(s, 0, IsSpace);
    StripEnds(s, lo);
    s[lo..lo + TrimEnd(s[lo..])]
  }

  /** The ends of what `strip` keeps, when the leading run of whitespace stops at `lo`. */
  lemma StripEnds(s: string, lo: nat)
    requires AllIn(s, 0, lo, IsSpace) && (lo < |s| ==> !IsSpace(s[lo]))
    ensures var r := s[lo..lo + TrimEnd(s[lo..])];
      && (r != [] ==> !IsSpace(r[0]) && !IsSpace(r[|r| - 1]))
      && (r == [] <==> AllIn(s, 0, |s|, IsSpace))
  {
    var t := s[lo..];
    var hi := TrimEnd(t);
    var r := s[lo..lo + hi];
    if hi > 0 {
      assert r[0] == s[lo];
      assert r[|r| - 1] == t[hi - 1];
    }
    if AllIn(s, 0, |s|, IsSpace) {
      assert lo == |s|;
    }
  }

  /** `s.strip()` removes exactly a whitespace prefix and a whitespace suffix. */
  lemma StripShape(s: string)
    ensures exists lo: nat, hi: nat ::
      lo <= hi <= |s| && Strip(s) == s[lo..hi] && AllIn(s, 0, lo, IsSpace) && AllIn(s, hi, |s|, IsSpace)
  {
    var lo := Span(s, 0, IsSpace);
    SpanRun(s, 0, IsSpace);
    var hi := lo + TrimEnd(s[lo..]);
    assert forall k | hi <= k < |s| :: s[k] == s[lo..][k - lo];
    assert AllIn(s, hi, |s|, IsSpace);
  }

  /** A string that neither starts nor ends with whitespace is its own strip. */
  lemma StripNoop(s: string)
    requires Stripped(s)
    ensures Strip(s) == s
  {
    if s != [] {
      assert Span(s, 0, IsSpace) == 0;
      assert TrimEnd(s) == |s|;
    }
  }

  /** Stripping twice is stripping once. */
  lemma StripIdempotent(s: string)
    ensures Strip(Strip(s)) == Strip(s)
  {
    StripNoop(Strip(s));
  }

  /** The line-break sequence that ends the line at `e`: `\r\n` is one break. */
  function BreakWidth(s: string, e: nat): (w: nat)
    requires e < |s|
    ensures w == 1 || w == 2
    ensures e + w <= |s|
  {
    if s[e] == '\r' && e + 1 < |s| && s[e + 1] == '\n' then 2 else 1
  }

  /**
   * Python's `s.splitlines()`: the text between line breaks, with no empty
   * last line for a trailing break.
   */
  function SplitLines(s: string): (r: seq<string>)
    ensures forall k | 0 <= k < |r| :: AllIn(r[k], 0, |r[k]|, NotLineBreak)
    ensures |r| <= |s|
    ensures s == [] <==> r == []
    decreases |s|
  {
    if s == [] then []
    else
      var e := Span(s, 0, NotLineBreak);
      SpanRun(s, 0, NotLineBreak);
      if e == |s| then [s]
      else
        var rest := SplitLines(s[e + BreakWidth(s, e)..]);
        assert forall k | 0 <= k < e :: s[..e][k] == s[k];
        [s[..e]] + rest
  }

  /** `sep.join(xs)`. */
  function Join(sep: string, xs: seq<string>): string
  {
    if xs == [] then ""
    else if |xs| == 1 then xs[0]
    else xs[0] + sep + Join(sep, xs[1..])
  }

  lemma AppendAssoc(a: string, b: string, c: string)
    ensures (a + b) + c == a + (b + c)
  {
  }

  /** Joining a list extended by one element appends the separator and the element. */
  lemma {:induction false} JoinSnoc(sep: string, xs: seq<string>, x: string)
    ensures Join(sep, xs + [x]) == if xs == [] then x else Join(sep, xs) + sep + x
  {
    if |xs| <= 1 {
      if |xs| == 1 {
        assert xs + [x] == [xs[0], x];
        assert [xs[0], x][1..] == [x];
      } else {
        assert xs + [x] == [x];
      }
    } else {
      assert (xs + [x])[1..] == xs[1..] + [x];
      JoinSnoc(sep, xs[1..], x);
    }
  }

  /** Joining two non-empty lists is joining their joins. */
  lemma {:induction false} JoinAppend(sep: string, xs: seq<string>, ys: seq<string>)
    requires xs != [] && ys != []
    ensures Join(sep, xs + ys) == Join(sep, xs) + sep + Join(sep, ys)
  {
    if |xs| == 1 {
      assert (xs + ys)[1..] == ys;
    } else {
      assert (xs + ys)[1..] == xs[1..] + ys;
      JoinAppend(sep, xs[1..], ys);
    }
  }

  /** `[line.strip() for line in lines if line.strip()]`. */
  function CleanLines(lines: seq<string>): (r: seq<string>)
    ensures |r| <= |lines|
    ensures forall k | 0 <= k < |r| :: r[k] != [] && Stripped(r[k])
  {
    if lines == [] then []
    else (if Strip(lines[0]) != [] then [Strip(lines[0])] else []) + CleanLines(lines[1..])
  }

  /** Lines that are already stripped and non-blank are kept as they are. */
  lemma {:induction false} CleanLinesNoop(lines: seq<string>)
    requires forall k | 0 <= k < |lines| :: lines[k] != [] && Stripped(lines[k])
    ensures CleanLines(lines) == lines
  {
    if lines != [] {
      StripNoop(lines[0]);
      CleanLinesNoop(lines[1..]);
      assert [lines[0]] + lines[1..] == lines;
    }
  }

  /** Cleaning cleaned lines changes nothing. */
  lemma CleanLinesIdempotent(lines: seq<string>)
    ensures CleanLines(CleanLines(lines)) == CleanLines(lines)
  {
    CleanLinesNoop(CleanLines(lines));
  }

  /** Cleaning one more line adds its stripped form unless it is blank. */
  lemma {:induction false} CleanLinesSnoc(lines: seq<string>, x: string)
    ensures CleanLines(lines + [x]) == CleanLines(lines) + (if Strip(x) != [] then [Strip(x)] else [])
  {
    if lines == [] {
      assert lines + [x] == [x];
      assert [x][1..] == [];
    } else {
      var head := if Strip(lines[0]) != [] then [Strip(lines[0])] else [];
      var tail := if Strip(x) != [] then [Strip(x)] else [];
      assert (lines + [x])[0] == lines[0];
      assert (lines + [x])[1..] == lines[1..] + [x];
      CleanLinesSnoc(lines[1..], x);
      calc {
        CleanLines(lines + [x]);
        head + CleanLines(lines[1..] + [x]);
        head + (CleanLines(lines[1..]) + tail);
        (head + CleanLines(lines[1..])) + tail;
      }
    }
  }

  /** Joining non-blank stripped lines gives a non-blank stripped text: its ends are the ends of the first and last lines. */
  lemma {:induction false} JoinStripped(sep: string, xs: seq<string>)
    requires xs != [] && forall k | 0 <= k < |xs| :: xs[k] != [] && Stripped(xs[k])
    ensures Join(sep, xs) != [] && Stripped(Join(sep, xs))
    ensures Join(sep, xs)[0] == xs[0][0]
  {
    if |xs| > 1 {
      JoinStripped(sep, xs[1..]);
      var j := Join(sep, xs[1..]);
      assert Join(sep, xs) == xs[0] + sep + j;
      assert Join(sep, xs)[|Join(sep, xs)| - 1] == j[|j| - 1];
    }
  }

  /** Stripping a space put in front of a stripped text gives the text back. */
  lemma StripLeadingSpace(x: string)
    requires x != [] && Stripped(x)
    ensures Strip(" " + x) == x
  {
    var s := " " + x;
    assert AllIn(s, 0, 1, IsSpace);
    RunStops(s, 0, 1, IsSpace);
    assert s[1..] == x;
    assert TrimEnd(x) == |x|;
  }

  /** `s.replace(",", "")`. */
  function RemoveCommas(s: string): (r: string)
    ensures |r| <= |s|
  {
    if s == [] then []
    else (if s[0] == ',' then [] else [s[0]]) + RemoveCommas(s[1..])
  }

  /** No comma is left, and a string without commas is kept whole. */
  lemma {:induction false} RemoveCommasSpec(s: string)
    ensures forall k | 0 <= k < |RemoveCommas(s)| :: RemoveCommas(s)[k] != ','
    ensures (forall k | 0 <= k < |s| :: s[k] != ',') ==> RemoveCommas(s) == s
  {
    if s != [] {
      RemoveCommasSpec(s[1..]);
      var r := RemoveCommas(s);
      var t := RemoveCommas(s[1..]);
      assert r == (if s[0] == ',' then [] else [s[0]]) + t;
      if s[0] != ',' {
        assert forall k | 1 <= k < |r| :: r[k] == t[k - 1];
        if forall k | 0 <= k < |s| :: s[k] != ',' {
          assert forall k | 0 <= k < |s[1..]| :: s[1..][k] == s[k + 1];
          assert s == [s[0]] + s[1..];
        }
      }
    }
  }

  /** Removing commas keeps every other character, in order. */
  lemma {:induction false} RemoveCommasConcat(a: string, b: string)
    ensures RemoveCommas(a + b) == RemoveCommas(a) + RemoveCommas(b)
  {
    if a != [] {
      assert (a + b)[1..] == a[1..] + b;
      RemoveCommasConcat(a[1..], b);
    } else {
      assert a + b == b;
    }
  }

  /** Removing commas keeps a character class closed once commas are out of it. */
  lemma {:induction false} RemoveCommasKeepsClass(s: string, P: char -> bool)
    requires forall k | 0 <= k < |s| :: P(s[k]) || s[k] == ','
    ensures forall k | 0 <= k < |RemoveCommas(s)| :: P(RemoveCommas(s)[k])
  {
    if s != [] {
      RemoveCommasKeepsClass(s[1..], P);
    }
  }

  // ---------------------------------------------------------------------------
  // Decimal numerals
  // ---------------------------------------------------------------------------

  function DigitChar(d: nat): (c: char)
    requires d < 10
    ensures IsDigit(c)
  {
    ('0' as int + d) as char
  }

  function DigitVal(c: char): (d: nat)
    requires IsDigit(c)
    ensures d < 10
    ensures DigitChar(d) == c
  {
    c as int - '0' as int
  }

  /** Python's `str(n)` for a natural number. */
  function NatToString(n: nat): (r: string)
    ensures r != []
    ensures forall k | 0 <= k < |r| :: IsDigit(r[k])
    ensures n < 10 <==> |r| == 1
    decreases n
  {
    if n < 10 then [DigitChar(n)] else NatToString(n / 10) + [DigitChar(n % 10)]
  }

  /** The value of a string of ASCII digits, as `int(s)` reads it. */
  function DigitsValue(s: string): nat
    requires forall k | 0 <= k < |s| :: IsDigit(s[k])
  {
    if s == [] then 0 else 10 * DigitsValue(s[..|s| - 1]) + DigitVal(s[|s| - 1])
  }

  /** Reading back a numeral gives the number. */
  lemma {:induction false} DigitsValueOfNatToString(n: nat)
    ensures DigitsValue(NatToString(n)) == n
  {
    var r := NatToString(n);
    if n >= 10 {
      DigitsValueOfNatToString(n / 10);
      assert r[..|r| - 1] == NatToString(n / 10);
    }
  }

  /** Distinct numbers have distinct numerals. */
  lemma NatToStringInjective(m: nat, n: nat)
    requires NatToString(m) == NatToString(n)
    ensures m == n
  {
    DigitsValueOfNatToString(m);
    DigitsValueOfNatToString(n);
  }

  // ---------------------------------------------------------------------------
  // Paths
  // ---------------------------------------------------------------------------

  /** Where a path ends once trailing `/` characters are dropped. */
  function SlashTrimEnd(p: string): (hi: nat)
    ensures hi <= |p|
    ensures AllIn(p, hi, |p|, c => c == '/')
    ensures hi > 0 ==> p[hi - 1] != '/'
  {
    if p != [] && p[|p| - 1] == '/' then
      var h := SlashTrimEnd(p[..|p| - 1]);
      assert forall k | h <= k < |p| - 1 :: p[k] == p[..|p| - 1][k];
      h
    else |p|
  }

  /** Python's `Path(p).name` for a POSIX path: the last component, trailing `/` ignored. */
  function BaseName(p: string): (r: string)
    ensures forall k | 0 <= k < |r| :: r[k] != '/'
  {
    LastComponent(p[..SlashTrimEnd(p)])
  }

  /** The text after the last `/`. */
  function LastComponent(p: string): (r: string)
    ensures forall k | 0 <= k < |r| :: r[k] != '/'
    ensures |r| <= |p|
    ensures r == p[|p| - |r|..]
    ensures |r| < |p| ==> p[|p| - |r| - 1] == '/'
  {
    if p == [] then ""
    else if p[|p| - 1] == '/' then ""
    else
      var b := LastComponent(p[..|p| - 1]);
      assert p[..|p| - 1][|p| - 1 - |b|..] == p[|p| - 1 - |b|..|p| - 1];
      b + [p[|p| - 1]]
  }
}
