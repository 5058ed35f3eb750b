/**
 * Pattern fragments that several extractors share: the two-decimal money
 * amount `[\d,]+\.\d{2}` and the "Month d, yyyy" date tails.
 */
module Patterns {
  import opened Options
  import opened Text
  import opened Scan

  predicate DigitOrComma(c: char) { IsDigit(c) || c == ',' }

  predicate DigitOrDot(c: char) { IsDigit(c) || c == '.' }

  predicate DigitCommaOrDot(c: char) { IsDigit(c) || c == ',' || c == '.' }

  predicate DigitOrDash(c: char) { IsDigit(c) || c == '-' }

  predicate ColonOrSpace(c: char) { c == ':' || IsSpace(c) }

  // ---------------------------------------------------------------------------
  // \s*-\s*lit
  // ---------------------------------------------------------------------------

  /** `\s*-\s*lit` at `e`: the dash and where `lit` starts. */
  function SepAt(s: string, e: nat, lit: string): (r: Option<(nat, nat)>)
    ensures r.Some? ==> AllIn(s, e, r.value.0, IsSpace) && r.value.0 < |s| && s[r.value.0] == '-'
    ensures r.Some? ==> AllIn(s, r.value.0 + 1, r.value.1, IsSpace) && LitAt(s, r.value.1, lit)
  {
    if e > |s| then None
    else
      var x := Span(s, e, IsSpace);
      SpanRun(s, e, IsSpace);
      if x < |s| && s[x] == '-' then
        var y := Span(s, x + 1, IsSpace);
        SpanRun(s, x + 1, IsSpace);
        if LitAt(s, y, lit) then Some((x, y)) else None
      else None
  }

  /** A separator followed by a literal that does not start with whitespace has one parse. */
  lemma SepAtComplete(s: string, e: nat, lit: string, x: nat, y: nat)
    requires AllIn(s, e, x, IsSpace) && x < |s| && s[x] == '-'
    requires AllIn(s, x + 1, y, IsSpace) && LitAt(s, y, lit) && lit != [] && !IsSpace(lit[0])
    ensures SepAt(s, e, lit) == Some((x, y))
  {
    RunStops(s, e, x, IsSpace);
    assert s[y] == s[y..y + |lit|][0];
    RunStops(s, x + 1, y, IsSpace);
  }

  // ---------------------------------------------------------------------------
  // [\d,]+\.\d{2}
  // ---------------------------------------------------------------------------

  /** `[\d,]+\.\d{2}` matches `s[i..j + 3]`, with the point at `j`. */
  predicate AmountParse(s: string, i: nat, j: nat) {
    i < j && AllIn(s, i, j, DigitOrComma) && j < |s| && s[j] == '.' && AllIn(s, j + 1, j + 3, IsDigit)
  }

  /** Where the amount at `i` has its decimal point. */
  function AmountAt(s: string, i: nat): (r: Option<nat>)
    ensures r.Some? ==> AmountParse(s, i, r.value)
  {
    if i > |s| then None
    else
      var j := Span(s, i, DigitOrComma);
      if AmountParse(s, i, j) then Some(j) else None
  }

  /** An amount has one parse: the comma-digit run must stop at the point. */
  lemma AmountAtComplete(s: string, i: nat, j: nat)
    requires AmountParse(s, i, j)
    ensures AmountAt(s, i) == Some(j)
  {
    RunStops(s, i, j, DigitOrComma);
  }

  /** Digits with a point before the last two: what `[\d,]+\.\d{2}` leaves once its commas are removed. */
  predicate TwoDecimals(r: string) {
    |r| >= 3 && r[|r| - 3] == '.' && forall k | 0 <= k < |r| && k != |r| - 3 :: IsDigit(r[k])
  }

  /** Digits followed by a point and two digits. */
  lemma TwoDecimalsJoin(w: string, t: string)
    requires forall k | 0 <= k < |w| :: IsDigit(w[k])
    requires |t| == 3 && t[0] == '.' && IsDigit(t[1]) && IsDigit(t[2])
    ensures TwoDecimals(w + t)
  {
    var r := w + t;
    forall k | 0 <= k < |r| && k != |r| - 3 ensures IsDigit(r[k]) {
      if k < |w| { assert r[k] == w[k]; }
      else { assert r[k] == t[k - |w|]; }
    }
  }

  /** The point and the two decimals after it have no comma to remove. */
  lemma PointTail(s: string, j: nat)
    requires j + 3 <= |s| && s[j] == '.' && AllIn(s, j + 1, j + 3, IsDigit)
    ensures var t := s[j..j + 3]; RemoveCommas(t) == t && t[0] == '.' && IsDigit(t[1]) && IsDigit(t[2])
  {
    var t := s[j..j + 3];
    assert t[0] == s[j] && t[1] == s[j + 1] && t[2] == s[j + 2];
    RemoveCommasSpec(t);
  }

  /** The comma-digit run keeps only digits once its commas are removed. */
  lemma DigitRun(s: string, i: nat, j: nat)
    requires i <= j <= |s| && AllIn(s, i, j, DigitOrComma)
    ensures forall k | 0 <= k < |RemoveCommas(s[i..j])| :: IsDigit(RemoveCommas(s[i..j])[k])
  {
    var u := s[i..j];
    assert forall k | 0 <= k < |u| :: u[k] == s[i + k];
    RemoveCommasKeepsClass(u, IsDigit);
  }

  /** With its commas removed, the amount is digits, one point and two decimals. */
  lemma AmountShape(s: string, i: nat, j: nat)
    requires AmountParse(s, i, j)
    ensures TwoDecimals(RemoveCommas(s[i..j + 3]))
  {
    var t := s[j..j + 3];
    assert s[i..j + 3] == s[i..j] + t;
    RemoveCommasConcat(s[i..j], t);
    PointTail(s, j);
    DigitRun(s, i, j);
    TwoDecimalsJoin(RemoveCommas(s[i..j]), t);
  }

  // ---------------------------------------------------------------------------
  // Date tails: \s+\d{1,2},\s+\d{4}   and   ' '\d{1,2},' '\d{4}
  // ---------------------------------------------------------------------------

  /**
   * Positions of a date after its month word: the word ends at `a`, the day
   * is `s[b..c]`, the comma is at `c`, the year is `s[d..d + 4]`.
   */
  datatype DatePos = DatePos(a: nat, b: nat, c: nat, d: nat)

  /**
   * `\s+\d{1,2},\s+\d{4}` (or, with `single`, `' '\d{1,2}, \d{4}`) matches
   * from `m.a` to `m.d + 4`.
   */
  predicate DateTailParse(s: string, single: bool, m: DatePos) {
    && (if single then m.b == m.a + 1 && m.a < |s| && s[m.a] == ' ' else m.a < m.b && AllIn(s, m.a, m.b, IsSpace))
    && AllIn(s, m.b, m.c, IsDigit) && 1 <= m.c - m.b <= 2 && m.c < |s| && s[m.c] == ','
    && (if single then m.d == m.c + 2 && m.c + 1 < |s| && s[m.c + 1] == ' ' else m.c + 1 < m.d && AllIn(s, m.c + 1, m.d, IsSpace))
    && AllIn(s, m.d, m.d + 4, IsDigit)
  }

  /** `\d{4}` at `d`. */
  predicate Year4At(s: string, d: nat) {
    d + 4 <= |s| && IsDigit(s[d]) && IsDigit(s[d + 1]) && IsDigit(s[d + 2]) && IsDigit(s[d + 3])
  }

  /** A year that ends a slice is still its last four characters. */
  lemma Year4AtSlice(s: string, lo: nat, end: nat)
    requires lo + 4 <= end <= |s| && Year4At(s, end - 4)
    ensures Year4At(s[lo..end], end - lo - 4)
  {
    var r := s[lo..end];
    assert r[end - lo - 4] == s[end - 4] && r[end - lo - 3] == s[end - 3];
    assert r[end - lo - 2] == s[end - 2] && r[end - lo - 1] == s[end - 1];
  }

  /** The match of a date tail at `a`, with the greedy runs as `Span` finds them. */
  function DateTailAt(s: string, a: nat, single: bool): (r: Option<DatePos>)
    ensures r.Some? ==> r.value.a == a < r.value.b < r.value.c < r.value.d && r.value.d + 4 <= |s|
  {
    if a >= |s| then None
    else
      var b := if single then a + 1 else Span(s, a, IsSpace);
      var c := Span(s, b, IsDigit);
      var d := if single then c + 2 else if c + 1 <= |s| then Span(s, c + 1, IsSpace) else c + 1;
      if && (if single then s[a] == ' ' else a < b)
         && 1 <= c - b <= 2 && c < |s| && s[c] == ','
         && (if single then c + 1 < |s| && s[c + 1] == ' ' else c + 1 < d)
         && Year4At(s, d)
      then Some(DatePos(a, b, c, d))
      else None
  }

  lemma DateTailAtSound(s: string, a: nat, single: bool)
    requires DateTailAt(s, a, single).Some?
    ensures DateTailParse(s, single, DateTailAt(s, a, single).value)
  {
    var m := DateTailAt(s, a, single).value;
    SpanRun(s, m.b, IsDigit);
    assert AllIn(s, m.b, m.c, IsDigit);
    assert AllIn(s, m.d, m.d + 4, IsDigit) by {
      assert Year4At(s, m.d);
    }
    if !single {
      SpanRun(s, a, IsSpace);
      SpanRun(s, m.c + 1, IsSpace);
    }
  }

  /** A date tail has one parse, the one `DateTailAt` finds. */
  lemma DateTailAtComplete(s: string, single: bool, m: DatePos)
    requires DateTailParse(s, single, m)
    ensures DateTailAt(s, m.a, single) == Some(m)
  {
    if !single {
      RunStops(s, m.a, m.b, IsSpace);
      RunStops(s, m.c + 1, m.d, IsSpace);
    }
    RunStops(s, m.b, m.c, IsDigit);
  }
}
