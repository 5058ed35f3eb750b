/**
 * Python's `int(s)` and `float(s)` on the strings the invoice patterns can
 * capture, whose characters are digits, `.`, `-` and `+`. A float is kept as
 * an exact decimal: `units / 10^scale`.
 */
module Numbers {
  import opened Options
  import opened Text
  import opened Patterns

  /** The value `units / 10^scale`, read without rounding. */
  datatype Decimal = Decimal(units: int, scale: nat)

  predicate AllDigits(s: string) {
    forall k | 0 <= k < |s| :: IsDigit(s[k])
  }

  predicate NumeralChar(c: char) {
    IsDigit(c) || c == '.' || c == '-' || c == '+'
  }

  predicate IsSign(c: char) { c == '-' || c == '+' }

  /** An integer literal as `int` accepts it here: an optional sign, then at least one digit. */
  predicate IntLiteral(s: string) {
    if s != [] && IsSign(s[0]) then |s| >= 2 && AllDigits(s[1..]) else s != [] && AllDigits(s)
  }

  /** The magnitude `DigitsValue` reads, with the leading sign applied. */
  function Signed(negative: bool, n: nat): int {
    if negative then -(n as int) else n
  }

  /** Python's `int(s)`: `None` where it raises `ValueError`. */
  function ParseInt(s: string): (r: Option<int>)
    ensures r.Some? <==> IntLiteral(s)
    ensures r.Some? && AllDigits(s) ==> r.value == DigitsValue(s)
  {
    if s != [] && IsSign(s[0]) then
      if |s| >= 2 && AllDigits(s[1..]) then Some(Signed(s[0] == '-', DigitsValue(s[1..]))) else None
    else if s != [] && AllDigits(s) then Some(DigitsValue(s))
    else None
  }

  /** Python's `str(n)`. */
  function IntToString(n: int): (r: string)
    ensures IntLiteral(r)
  {
    if n < 0 then "-" + NatToString(-n) else NatToString(n)
  }

  /** `int` reads back what `str` writes. */
  lemma ParseIntOfIntToString(n: int)
    ensures ParseInt(IntToString(n)) == Some(n)
  {
    var r := IntToString(n);
    if n < 0 {
      assert r[1..] == NatToString(-n);
      DigitsValueOfNatToString(-n);
    } else {
      DigitsValueOfNatToString(n);
    }
  }

  /**
   * A decimal literal as `float` accepts it here: an optional sign, then
   * digits with at most one point and at least one digit.
   */
  predicate FloatLiteral(s: string) {
    var body := if s != [] && IsSign(s[0]) then s[1..] else s;
    var q := IndexOf(body, ".", 0);
    if q < 0 then body != [] && AllDigits(body)
    else AllDigits(body[..q]) && AllDigits(body[q + 1..]) && |body| >= 2
  }

  /** Python's `float(s)` for `s` over digits, `.`, `-` and `+`: `None` where it raises `ValueError`. */
  function ParseDecimal(s: string): (r: Option<Decimal>)
    requires forall k | 0 <= k < |s| :: NumeralChar(s[k])
    ensures r.Some? <==> FloatLiteral(s)
  {
    var negative := s != [] && s[0] == '-';
    var body := if s != [] && IsSign(s[0]) then s[1..] else s;
    var q := IndexOf(body, ".", 0);
    if q < 0 then
      if body != [] && AllDigits(body) then Some(Decimal(Signed(negative, DigitsValue(body)), 0)) else None
    else
      var whole := body[..q];
      var frac := body[q + 1..];
      if AllDigits(whole) && AllDigits(frac) && |body| >= 2 then
        Some(Decimal(Signed(negative, DigitsValue(whole + frac)), |frac|))
      else None
  }

  /** A run of digits, a point and a run of digits reads as their digits over `10^|frac|`. */
  lemma ParseDecimalPointed(whole: string, frac: string)
    requires AllDigits(whole) && AllDigits(frac) && |whole| + |frac| >= 1
    ensures forall k | 0 <= k < |whole + "." + frac| :: NumeralChar((whole + "." + frac)[k])
    ensures ParseDecimal(whole + "." + frac) == Some(Decimal(DigitsValue(whole + frac), |frac|))
  {
    var s := whole + "." + frac;
    assert forall k | 0 <= k < |s| :: NumeralChar(s[k]) by {
      forall k | 0 <= k < |s| ensures NumeralChar(s[k]) {
        if k < |whole| { assert s[k] == whole[k]; }
        else if k > |whole| { assert s[k] == frac[k - |whole| - 1]; }
      }
    }
    assert !IsSign(s[0]) by {
      if |whole| > 0 { assert s[0] == whole[0]; }
    }
    IndexOfFirstPoint(whole, frac);
    assert s[..|whole|] == whole;
    assert s[|whole| + 1..] == frac;
  }

  /** In `whole + "." + frac` with digit-only sides, the first point is the middle one. */
  lemma IndexOfFirstPoint(whole: string, frac: string)
    requires AllDigits(whole)
    ensures IndexOf(whole + "." + frac, ".", 0) == |whole|
  {
    var s := whole + "." + frac;
    assert LitAt(s, |whole|, ".") by {
      assert s[|whole|..|whole| + 1] == ".";
    }
    forall p | 0 <= p < |whole| ensures !LitAt(s, p, ".") {
      assert s[p..p + 1][0] == s[p] == whole[p];
    }
  }

  /** A string with two points is not a float literal. */
  lemma ParseDecimalTwoPoints(s: string, i: nat, j: nat)
    requires forall k | 0 <= k < |s| :: NumeralChar(s[k])
    requires i < j < |s| && s[i] == '.' && s[j] == '.'
    ensures ParseDecimal(s) == None
  {
    var body := if s != [] && IsSign(s[0]) then s[1..] else s;
    var off := |s| - |body|;
    assert off <= i;
    assert body[i - off] == '.' && body[j - off] == '.';
    var q := IndexOf(body, ".", 0);
    assert LitAt(body, i - off, ".") by {
      assert body[i - off..i - off + 1] == [body[i - off]];
    }
    if q >= 0 {
      assert q <= i - off;
      assert body[q + 1..][j - off - q - 1] == '.';
    }
  }

  /** A lone sign or a lone point is not a number. */
  lemma ParseDecimalDegenerate()
    ensures ParseDecimal("-") == None && ParseDecimal(".") == None && ParseDecimal("") == None
  {
    assert IndexOf(".", ".", 0) == 0 by {
      assert LitAt(".", 0, ".");
    }
  }

  /** A run of digits reads as a whole number. */
  lemma ParseDecimalDigits(r: string)
    requires r != [] && AllDigits(r)
    ensures forall k | 0 <= k < |r| :: NumeralChar(r[k])
    ensures ParseDecimal(r) == Some(Decimal(DigitsValue(r), 0))
  {
    assert !IsSign(r[0]);
    forall p | 0 <= p < |r| ensures !LitAt(r, p, ".") {
      assert r[p..p + 1][0] == r[p];
    }
  }

  /** A two-decimal amount always converts: its digits over 100. */
  lemma ParseDecimalTwoDecimals(r: string)
    requires TwoDecimals(r)
    ensures forall k | 0 <= k < |r| :: NumeralChar(r[k])
    ensures ParseDecimal(r) == Some(Decimal(DigitsValue(r[..|r| - 3] + r[|r| - 2..]), 2))
  {
    var whole := r[..|r| - 3];
    var frac := r[|r| - 2..];
    assert r == whole + "." + frac;
    assert AllDigits(whole) by {
      forall k | 0 <= k < |whole| ensures IsDigit(whole[k]) { assert whole[k] == r[k]; }
    }
    assert AllDigits(frac) by {
      forall k | 0 <= k < |frac| ensures IsDigit(frac[k]) { assert frac[k] == r[|r| - 2 + k]; }
    }
    ParseDecimalPointed(whole, frac);
  }

  /**
   * `r` is the value of the amount `s[i..j + 3]` with its commas removed:
   * digits, a point and two decimals, read as hundredths.
   */
  predicate AmountValue(s: string, i: nat, j: nat, r: Decimal) {
    i <= j + 3 <= |s| &&
    var t := RemoveCommas(s[i..j + 3]);
    TwoDecimals(t) && r == Decimal(DigitsValue(t[..|t| - 3] + t[|t| - 2..]), 2)
  }

  /** `float(amount.replace(",", ""))` of a `[\d,]+\.\d{2}` match: it always converts, to hundredths. */
  function AmountDecimal(s: string, i: nat, j: nat): (r: Decimal)
    requires AmountParse(s, i, j)
    ensures AmountValue(s, i, j, r)
  {
    AmountShape(s, i, j);
    ParseDecimalTwoDecimals(RemoveCommas(s[i..j + 3]));
    ParseDecimal(RemoveCommas(s[i..j + 3])).value
  }
}
