/**
 * Reading the pieces of a line written out from its fields: where each
 * literal and each field of a concatenation lies in the whole line, and the
 * value of a short numeral.
 */
module LineParts {
  import opened Options
  import opened Text
  import opened Scan
  import opened Numbers

  /** `s` from `e` on is `a` followed by `b`. */
  lemma Piece(s: string, e: nat, a: string, b: string)
    requires e <= |s| && s[e..] == a + b
    ensures LitAt(s, e, a) && s[e + |a|..] == b
  {
    assert s[e..e + |a|] == s[e..][..|a|];
    assert (a + b)[..|a|] == a;
    assert s[e + |a|..] == s[e..][|a|..];
    assert (a + b)[|a|..] == b;
  }

  /** `s` from `e` on is `b`. */
  lemma Rest(s: string, e: nat, b: string)
    requires e <= |s| && s[e..] == b
    ensures LitAt(s, e, b) && e + |b| == |s|
  {
    assert s[e..e + |b|] == s[e..];
  }

  lemma LitChar(s: string, e: nat, a: string, k: nat)
    requires LitAt(s, e, a) && k < |a|
    ensures s[e + k] == a[k]
  {
    assert s[e + k] == s[e..e + |a|][k];
  }

  /** `s` from `e` on is the one character `a` followed by `b`. */
  lemma CharPiece(s: string, e: nat, a: string, b: string)
    requires |a| == 1 && e <= |s| && s[e..] == a + b
    ensures e < |s| && s[e] == a[0] && s[e + 1..] == b
  {
    Piece(s, e, a, b);
    LitChar(s, e, a, 0);
  }

  /** `s` from `e` on is the field `a`, all of class `P`, followed by `b`. */
  lemma FieldRun(s: string, e: nat, a: string, b: string, P: char -> bool)
    requires e <= |s| && s[e..] == a + b && AllIn(a, 0, |a|, P)
    ensures AllIn(s, e, e + |a|, P) && s[e + |a|..] == b
  {
    Piece(s, e, a, b);
    forall k | e <= k < e + |a| ensures P(s[k]) {
      LitChar(s, e, a, k - e);
    }
  }

  /** `s` from `e` on is the stripped, non-empty name `a`, all of class `P`, followed by `b`: its first and last characters are not whitespace. */
  lemma NameRun(s: string, e: nat, a: string, b: string, P: char -> bool)
    requires e <= |s| && s[e..] == a + b && a != [] && AllIn(a, 0, |a|, P) && Stripped(a)
    ensures e < e + |a| <= |s| && AllIn(s, e, e + |a|, P) && s[e + |a|..] == b
    ensures !IsSpace(s[e]) && !IsSpace(s[e + |a| - 1])
  {
    FieldRun(s, e, a, b, P);
    LitChar(s, e, a, 0);
    LitChar(s, e, a, |a| - 1);
  }

  /** `s` from `e` on is the field `a`, all of class `P`, to its end. */
  lemma FieldEnd(s: string, e: nat, a: string, P: char -> bool)
    requires e <= |s| && s[e..] == a && AllIn(a, 0, |a|, P)
    ensures AllIn(s, e, |s|, P) && e + |a| == |s|
  {
    Rest(s, e, a);
    forall k | e <= k < |s| ensures P(s[k]) {
      LitChar(s, e, a, k - e);
    }
  }

  /** A backward search that matches at its upper end stops there. */
  lemma LastAtEnd<T>(lo: nat, hi: nat, at: nat -> Option<T>, v: T)
    requires lo <= hi && at(hi) == Some(v)
    ensures Last(lo, hi, at) == Some((hi, v))
  {
  }

  lemma AllInFrom(s: string, lo: nat, mid: nat, hi: nat, P: char -> bool)
    requires AllIn(s, lo, hi, P) && lo <= mid <= hi
    ensures AllIn(s, mid, hi, P)
  {
  }

  /** `s` from `i` on is the field `a` followed by `b`: the group from `i` to `j` is `a`. */
  lemma FieldSlice(s: string, i: nat, j: nat, a: string, b: string)
    requires i <= |s| && s[i..] == a + b && j == i + |a|
    ensures j <= |s| && Slice(s, Group(i, j)) == a && s[j..] == b
  {
    Piece(s, i, a, b);
  }

  /** One more digit multiplies the value by ten and adds the digit. */
  lemma DigitsSnoc(s: string, c: char)
    requires AllDigits(s) && IsDigit(c)
    ensures DigitsValue(s + [c]) == 10 * DigitsValue(s) + DigitVal(c)
  {
    assert (s + [c])[..|s|] == s;
  }

  /** The value of a numeral of three, four and five digits. */
  lemma DigitsFive(a: char, b: char, c: char, d: char, e: char)
    requires IsDigit(a) && IsDigit(b) && IsDigit(c) && IsDigit(d) && IsDigit(e)
    ensures DigitsValue([a, b, c]) == 100 * DigitVal(a) + 10 * DigitVal(b) + DigitVal(c)
    ensures DigitsValue([a, b, c, d]) == 1000 * DigitVal(a) + 100 * DigitVal(b) + 10 * DigitVal(c) + DigitVal(d)
    ensures DigitsValue([a, b, c, d, e])
      == 10000 * DigitVal(a) + 1000 * DigitVal(b) + 100 * DigitVal(c) + 10 * DigitVal(d) + DigitVal(e)
  {
    assert [a][..0] == [];
    DigitsSnoc([a], b);
    assert [a] + [b] == [a, b];
    DigitsSnoc([a, b], c);
    assert [a, b] + [c] == [a, b, c];
    DigitsSnoc([a, b, c], d);
    assert [a, b, c] + [d] == [a, b, c, d];
    DigitsSnoc([a, b, c, d], e);
    assert [a, b, c, d] + [e] == [a, b, c, d, e];
  }

  /** A single whitespace character before one that is not: `\s*` and `\s+` take exactly it. */
  lemma OneSpace(s: string, i: nat)
    requires i + 1 < |s| && IsSpace(s[i]) && !IsSpace(s[i + 1])
    ensures Span(s, i, IsSpace) == i + 1 && RunAt(s, i, IsSpace) == Some(i + 1)
  {
    RunStops(s, i, i + 1, IsSpace);
  }
}
