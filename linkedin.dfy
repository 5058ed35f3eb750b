/**
 * The LinkedIn extractor: one summary row (invoice number, a month flag and
 * the balance due, each with its fallback) read from the summary text, and
 * one detail row per campaign entry of the detail text.
 */
module LinkedIn {
  import opened Options
  import opened Text
  import opened Scan
  import opened Patterns
  import opened Numbers

  const InvoiceType := "LinkedIn"

  // ---------------------------------------------------------------------------
  // \s*[:]*\s*
  // ---------------------------------------------------------------------------

  predicate IsColon(c: char) { c == ':' }

  /** `\s*[:]*\s*` from `i`, each run taken whole: where it stops. */
  function ColonGap(s: string, i: nat): (r: nat)
    requires i <= |s|
    ensures i <= r <= |s| && AllIn(s, i, r, ColonOrSpace)
  {
    var x := Span(s, i, IsSpace);
    SpanRun(s, i, IsSpace);
    var y := Span(s, x, IsColon);
    SpanRun(s, x, IsColon);
    SpanRun(s, y, IsSpace);
    Span(s, y, IsSpace)
  }

  /**
   * When the pattern goes on with a character that is neither a colon nor
   * whitespace, every way of splitting the gap into spaces, colons and spaces
   * stops where `ColonGap` does: backtracking into the three runs never finds
   * another end.
   */
  lemma ColonGapComplete(s: string, i: nat, b: nat, c: nat, d: nat)
    requires AllIn(s, i, b, IsSpace) && AllIn(s, b, c, IsColon) && AllIn(s, c, d, IsSpace)
    requires d < |s| && !ColonOrSpace(s[d])
    ensures ColonGap(s, i) == d
  {
    if b < c {
      RunStops(s, i, b, IsSpace);
      assert c < |s| && !IsColon(s[c]) by {
        if c < d { assert IsSpace(s[c]); }
      }
      RunStops(s, b, c, IsColon);
      RunStops(s, c, d, IsSpace);
    } else {
      assert AllIn(s, i, d, IsSpace);
      RunStops(s, i, d, IsSpace);
      RunStops(s, d, d, IsColon);
      RunStops(s, d, d, IsSpace);
    }
  }

  // ---------------------------------------------------------------------------
  // Invoice Number\s*[:]*\s*(\d+)
  // ---------------------------------------------------------------------------

  /** The invoice-number pattern at `p`: its digits group. */
  function InvoiceNumberAt(s: string, p: nat): (r: Option<Group>)
    ensures r.Some? ==> LitAt(s, p, "Invoice Number") && p + 14 <= r.value.lo
    ensures r.Some? ==> AllIn(s, p + 14, r.value.lo, ColonOrSpace) && r.value.lo < r.value.hi <= |s|
    ensures r.Some? ==> AllIn(s, r.value.lo, r.value.hi, IsDigit) && (r.value.hi == |s| || !IsDigit(s[r.value.hi]))
  {
    if !LitAt(s, p, "Invoice Number") then None
    else
      var d := ColonGap(s, p + 14);
      var e := RunAt(s, d, IsDigit);
      if e.None? then None else Some(Group(d, e.value))
  }

  /** Any match of the invoice-number pattern at `p` captures what `InvoiceNumberAt` does. */
  lemma InvoiceNumberAtComplete(s: string, p: nat, b: nat, c: nat, g: Group)
    requires LitAt(s, p, "Invoice Number")
    requires AllIn(s, p + 14, b, IsSpace) && AllIn(s, b, c, IsColon) && AllIn(s, c, g.lo, IsSpace)
    requires g.lo < g.hi && AllIn(s, g.lo, g.hi, IsDigit) && (g.hi == |s| || !IsDigit(s[g.hi]))
    ensures InvoiceNumberAt(s, p) == Some(g)
  {
    ColonGapComplete(s, p + 14, b, c, g.lo);
    RunAtComplete(s, g.lo, g.hi, IsDigit);
  }

  function InvoiceNumbers(s: string): nat -> Option<Group> {
    (p: nat) => InvoiceNumberAt(s, p)
  }

  /** `re.search` of the invoice-number pattern: the leftmost start and its group. */
  function FindInvoiceNumber(s: string): (r: Option<(nat, Group)>)
    ensures r.Some? ==> r.value.0 <= |s| && InvoiceNumberAt(s, r.value.0) == Some(r.value.1)
    ensures r.Some? ==> forall p: nat | p < r.value.0 :: InvoiceNumberAt(s, p).None?
    ensures r.None? ==> forall p: nat | p <= |s| :: InvoiceNumberAt(s, p).None?
  {
    assert forall p: nat :: InvoiceNumbers(s)(p) == InvoiceNumberAt(s, p);
    Search(s, InvoiceNumbers(s))
  }

  /** `invoice_number.group(1) if invoice_number else "N/A"`. */
  function InvoiceNumberField(s: string): (r: string)
    ensures r == "N/A" <==> FindInvoiceNumber(s).None?
    ensures FindInvoiceNumber(s).Some? ==> var (_, g) := FindInvoiceNumber(s).value;
      r == Slice(s, g) && r != [] && AllIn(r, 0, |r|, IsDigit)
  {
    match FindInvoiceNumber(s)
    case None => "N/A"
    case Some((_, g)) =>
      SliceAllIn(s, g.lo, g.hi, IsDigit);
      assert Slice(s, g)[0] == s[g.lo];
      Slice(s, g)
  }

  // ---------------------------------------------------------------------------
  // Billing Period From\s+(\d{2}-[A-Z]{3}-\d{4})
  // ---------------------------------------------------------------------------

  /** `\d{2}-[A-Z]{3}-\d{4}` at `d`, such as "01-DEC-2024". */
  predicate DayMonthYearAt(s: string, d: nat) {
    && d + 11 <= |s|
    && AllIn(s, d, d + 2, IsDigit) && s[d + 2] == '-'
    && AllIn(s, d + 3, d + 6, IsUpper) && s[d + 6] == '-'
    && AllIn(s, d + 7, d + 11, IsDigit)
  }

  /** The billing-period pattern at `p`: its date group. */
  function PeriodAt(s: string, p: nat): (r: Option<Group>)
    ensures r.Some? ==> LitAt(s, p, "Billing Period From") && p + 19 < r.value.lo && AllIn(s, p + 19, r.value.lo, IsSpace)
    ensures r.Some? ==> r.value.hi == r.value.lo + 11 && DayMonthYearAt(s, r.value.lo)
  {
    if !LitAt(s, p, "Billing Period From") then None
    else
      var d := RunAt(s, p + 19, IsSpace);
      if d.Some? && DayMonthYearAt(s, d.value) then Some(Group(d.value, d.value + 11)) else None
  }

  /** Any match of the billing-period pattern at `p` is the one `PeriodAt` finds. */
  lemma PeriodAtComplete(s: string, p: nat, d: nat)
    requires LitAt(s, p, "Billing Period From") && p + 19 < d && AllIn(s, p + 19, d, IsSpace) && DayMonthYearAt(s, d)
    ensures PeriodAt(s, p) == Some(Group(d, d + 11))
  {
    assert IsDigit(s[d]);
    RunAtComplete(s, p + 19, d, IsSpace);
  }

  function Periods(s: string): nat -> Option<Group> {
    (p: nat) => PeriodAt(s, p)
  }

  /** `re.search` of the billing-period pattern. */
  function FindPeriod(s: string): (r: Option<(nat, Group)>)
    ensures r.Some? ==> r.value.0 <= |s| && PeriodAt(s, r.value.0) == Some(r.value.1)
    ensures r.None? ==> forall p: nat | p <= |s| :: PeriodAt(s, p).None?
  {
    assert forall p: nat :: Periods(s)(p) == PeriodAt(s, p);
    Search(s, Periods(s))
  }

  /** The month is the constant "Dec 2024" when a billing period is printed, and "N/A" when none is. */
  const FixedMonth := "Dec 2024"

  /** `"Dec 2024" if month_match else "N/A"`: the captured date itself is never read. */
  function MonthField(s: string): (r: string)
    ensures r == FixedMonth <==> FindPeriod(s).Some?
    ensures r == "N/A" <==> FindPeriod(s).None?
  {
    if FindPeriod(s).Some? then FixedMonth else "N/A"
  }

  /**
   * Two summaries that both print a billing period get the same month,
   * whatever dates they print.
   */
  lemma MonthIgnoresDate(s: string, t: string, p: nat, q: nat)
    requires p <= |s| && PeriodAt(s, p).Some? && q <= |t| && PeriodAt(t, q).Some?
    ensures MonthField(s) == MonthField(t) == FixedMonth
  {
    assert FindPeriod(s).Some? && FindPeriod(t).Some?;
  }

  // ---------------------------------------------------------------------------
  // Balance Due\s*[:]*\s*USD\s*([\d,]+\.\d{2})
  // ---------------------------------------------------------------------------

  /** `USD\s*([\d,]+\.\d{2})` at `u`: the amount group. */
  function UsdAmountAt(s: string, u: nat): (r: Option<Group>)
    ensures r.Some? ==> LitAt(s, u, "USD") && u + 3 <= r.value.lo && AllIn(s, u + 3, r.value.lo, IsSpace)
    ensures r.Some? ==> r.value.lo + 3 <= r.value.hi <= |s| && AmountParse(s, r.value.lo, r.value.hi - 3)
  {
    if !LitAt(s, u, "USD") then None
    else
      var a := Span(s, u + 3, IsSpace);
      SpanRun(s, u + 3, IsSpace);
      var pt := AmountAt(s, a);
      if pt.None? then None else Some(Group(a, pt.value + 3))
  }

  /** The balance pattern at `p`: where "USD" is, and the amount group. */
  function BalanceAt(s: string, p: nat): (r: Option<(nat, Group)>)
    ensures r.Some? ==> LitAt(s, p, "Balance Due") && p + 11 <= r.value.0 && AllIn(s, p + 11, r.value.0, ColonOrSpace)
    ensures r.Some? ==> UsdAmountAt(s, r.value.0) == Some(r.value.1)
  {
    if !LitAt(s, p, "Balance Due") then None
    else
      var u := ColonGap(s, p + 11);
      var g := UsdAmountAt(s, u);
      if g.None? then None else Some((u, g.value))
  }

  /** Any match of the balance pattern at `p` is the one `BalanceAt` finds. */
  lemma BalanceAtComplete(s: string, p: nat, b: nat, c: nat, u: nat, g: Group)
    requires LitAt(s, p, "Balance Due")
    requires AllIn(s, p + 11, b, IsSpace) && AllIn(s, b, c, IsColon) && AllIn(s, c, u, IsSpace) && LitAt(s, u, "USD")
    requires AllIn(s, u + 3, g.lo, IsSpace) && g.lo + 3 <= g.hi && AmountParse(s, g.lo, g.hi - 3)
    ensures BalanceAt(s, p) == Some((u, g))
  {
    assert s[u] == s[u..u + 3][0] == 'U';
    ColonGapComplete(s, p + 11, b, c, u);
    UsdAmountAtComplete(s, u, g);
  }

  /** Any match of `USD\s*([\d,]+\.\d{2})` at `u` is the one `UsdAmountAt` finds. */
  lemma UsdAmountAtComplete(s: string, u: nat, g: Group)
    requires LitAt(s, u, "USD") && AllIn(s, u + 3, g.lo, IsSpace) && g.lo + 3 <= g.hi && AmountParse(s, g.lo, g.hi - 3)
    ensures UsdAmountAt(s, u) == Some(g)
  {
    assert DigitOrComma(s[g.lo]);
    RunStops(s, u + 3, g.lo, IsSpace);
    AmountAtComplete(s, g.lo, g.hi - 3);
  }

  function Balances(s: string): nat -> Option<(nat, Group)> {
    (p: nat) => BalanceAt(s, p)
  }

  /** `re.search` of the balance pattern. */
  function FindBalance(s: string): (r: Option<(nat, (nat, Group))>)
    ensures r.Some? ==> r.value.0 <= |s| && BalanceAt(s, r.value.0) == Some(r.value.1)
    ensures r.Some? ==> forall p: nat | p < r.value.0 :: BalanceAt(s, p).None?
    ensures r.None? ==> forall p: nat | p <= |s| :: BalanceAt(s, p).None?
  {
    assert forall p: nat :: Balances(s)(p) == BalanceAt(s, p);
    Search(s, Balances(s))
  }

  /** The amount group of a balance match, as the bare facts about it. */
  lemma BalanceGroup(s: string, g: Group)
    requires FindBalance(s).Some? && FindBalance(s).value.1.1 == g
    ensures g.lo + 3 <= g.hi <= |s| && AmountParse(s, g.lo, g.hi - 3)
  {
  }

  /** `float(amount_match.group(1).replace(",", "")) if amount_match else 0.0`. */
  function TotalField(s: string): (r: Decimal)
    ensures FindBalance(s).None? ==> r == Decimal(0, 0)
    ensures FindBalance(s).Some? ==> var g := FindBalance(s).value.1.1;
      AmountValue(s, g.lo, g.hi - 3, r)
  {
    var m := FindBalance(s);
    if m.None? then Decimal(0, 0)
    else
      var g := m.value.1.1;
      BalanceGroup(s, g);
      AmountDecimal(s, g.lo, g.hi - 3)
  }

  /** The fields every row carries. */
  datatype Header = Header(invoiceNum: string, month: string)

  function HeaderOf(s: string): Header {
    Header(InvoiceNumberField(s), MonthField(s))
  }

  /** The one row of the summary data frame. */
  datatype SummaryRow = SummaryRow(invoiceType: string, invoiceNum: string, month: string, amount: Decimal)

  function SummaryOf(s: string): SummaryRow {
    SummaryRow(InvoiceType, InvoiceNumberField(s), MonthField(s), TotalField(s))
  }

  // ---------------------------------------------------------------------------
  // The detail pattern (no DOTALL), read from its end:
  //   Campaign:\s+(.*?)\s+(\d+(?:\.\d{2})?)\s+\d+\s+(\d+(?:\.\d{2})?)
  // ---------------------------------------------------------------------------

  /** What `\d+(?:\.\d{2})?` captures: digits, with or without a point and two decimals. */
  predicate NumberText(t: string) {
    (t != [] && AllDigits(t)) || (|t| >= 4 && TwoDecimals(t))
  }

  /** `.\d{2}` at `d`. */
  predicate TwoDecimalsAt(s: string, d: nat) {
    d + 3 <= |s| && s[d] == '.' && IsDigit(s[d + 1]) && IsDigit(s[d + 2])
  }

  /**
   * `\d+(?:\.\d{2})?` at `i`: the digit run taken whole, then the optional
   * decimals taken when they are there (the greedy `?` tries them first).
   */
  function NumberEnd(s: string, i: nat): (r: Option<nat>)
    ensures r.Some? ==> i < r.value <= |s| && NumberText(s[i..r.value])
    ensures r.Some? ==> r.value == Span(s, i, IsDigit) || (r.value == Span(s, i, IsDigit) + 3 && TwoDecimalsAt(s, r.value - 3))
  {
    var d := RunAt(s, i, IsDigit);
    if d.None? then None
    else
      NumberTextOf(s, i, d.value);
      Some(if TwoDecimalsAt(s, d.value) then d.value + 3 else d.value)
  }

  /** The text `NumberEnd` spans is a number in either form. */
  lemma NumberTextOf(s: string, i: nat, d: nat)
    requires i < d <= |s| && AllIn(s, i, d, IsDigit)
    ensures NumberText(s[i..d])
    ensures TwoDecimalsAt(s, d) ==> NumberText(s[i..d + 3])
  {
    assert AllDigits(s[i..d]) by {
      forall k | 0 <= k < d - i ensures IsDigit(s[i..d][k]) { assert s[i..d][k] == s[i + k]; }
    }
    if TwoDecimalsAt(s, d) {
      var t := s[i..d + 3];
      forall k | 0 <= k < |t| && k != |t| - 3 ensures IsDigit(t[k]) { assert t[k] == s[i + k]; }
      assert t[|t| - 3] == s[d];
    }
  }

  /** `float` of a number in either form always converts. */
  function NumberValue(t: string): (r: Decimal)
    requires NumberText(t)
    ensures AllDigits(t) ==> r == Decimal(DigitsValue(t), 0)
    ensures !AllDigits(t) ==> r == Decimal(DigitsValue(t[..|t| - 3] + t[|t| - 2..]), 2)
  {
    if AllDigits(t) then
      ParseDecimalDigits(t);
      ParseDecimal(t).value
    else
      ParseDecimalTwoDecimals(t);
      ParseDecimal(t).value
  }

  /** `\s+` and then a number at `e`: the number's group. */
  function SpacedNumberAt(s: string, e: nat): (r: Option<Group>)
    ensures r.Some? ==> e < r.value.lo < r.value.hi <= |s| && AllIn(s, e, r.value.lo, IsSpace)
    ensures r.Some? ==> NumberText(s[r.value.lo..r.value.hi])
  {
    var x := RunAt(s, e, IsSpace);
    if x.None? then None
    else
      var n := NumberEnd(s, x.value);
      if n.None? then None else Some(Group(x.value, n.value))
  }

  /** `\s+\d+` at `e`: the digits' group. */
  function SpacedCountAt(s: string, e: nat): (r: Option<Group>)
    ensures r.Some? ==> e < r.value.lo < r.value.hi <= |s| && AllIn(s, e, r.value.lo, IsSpace) && AllIn(s, r.value.lo, r.value.hi, IsDigit)
  {
    var x := RunAt(s, e, IsSpace);
    if x.None? then None
    else
      var z := RunAt(s, x.value, IsDigit);
      if z.None? then None else Some(Group(x.value, z.value))
  }

  /** The groups after the campaign name: the quantity, the skipped count and the amount. */
  datatype DetailTail = DetailTail(quantity: Group, count: Group, amount: Group)

  /**
   * The pattern after `(.*?)`, from `e`. Each run is forced: a digit run is
   * followed by whitespace, a point or the end, so giving back digits never
   * helps, and a number taken with its decimals that is not followed by
   * whitespace does not match without them either, as a point follows.
   */
  function TailAt(s: string, e: nat): (r: Option<DetailTail>)
    ensures r.Some? ==> SpacedNumberAt(s, e) == Some(r.value.quantity)
    ensures r.Some? ==> SpacedCountAt(s, r.value.quantity.hi) == Some(r.value.count)
    ensures r.Some? ==> SpacedNumberAt(s, r.value.count.hi) == Some(r.value.amount)
  {
    var q := SpacedNumberAt(s, e);
    if q.None? then None
    else
      var c := SpacedCountAt(s, q.value.hi);
      if c.None? then None
      else
        var a := SpacedNumberAt(s, c.value.hi);
        if a.None? then None else Some(DetailTail(q.value, c.value, a.value))
  }

  function Tails(s: string): nat -> Option<DetailTail> {
    (e: nat) => TailAt(s, e)
  }

  /**
   * `(.*?)` from `g`: the first end, from `g` itself up to the next newline,
   * after which the tail matches.
   */
  function NameFrom(s: string, g: nat): (r: Option<(nat, DetailTail)>)
    requires g <= |s|
    ensures r.Some? ==> g <= r.value.0 && AllIn(s, g, r.value.0, NotNewline) && TailAt(s, r.value.0) == Some(r.value.1)
    ensures r.Some? ==> forall e | g <= e < r.value.0 :: TailAt(s, e).None?
    ensures r.None? ==> forall e | g <= e <= LazyEndMax(s, g, false) :: TailAt(s, e).None?
  {
    assert forall e: nat :: Tails(s)(e) == TailAt(s, e);
    First(g, LazyEndMax(s, g, false), Tails(s))
  }

  function Names(s: string): nat -> Option<(nat, DetailTail)> {
    (g: nat) => if g <= |s| then NameFrom(s, g) else None
  }

  /** Where a detail match puts the campaign name, and the groups after it. */
  datatype DetailPos = DetailPos(name: Group, tail: DetailTail)

  function DetailEnd(m: DetailPos): nat {
    m.tail.amount.hi
  }

  /**
   * The detail pattern at `p`. The `\s+` after "Campaign:" is greedy but may
   * give characters back to `(.*?)`: its ends are tried from the longest run
   * down, and for each the name takes the shortest end that lets the tail
   * match.
   */
  function DetailAt(s: string, p: nat): (r: Option<DetailPos>)
    ensures r.Some? ==> LitAt(s, p, "Campaign:") && p + 9 < r.value.name.lo <= Span(s, p + 9, IsSpace)
    ensures r.Some? ==> NameFrom(s, r.value.name.lo) == Some((r.value.name.hi, r.value.tail))
    ensures r.Some? ==> forall g | r.value.name.lo < g <= Span(s, p + 9, IsSpace) :: NameFrom(s, g).None?
    ensures r.None? && LitAt(s, p, "Campaign:") ==> forall g | p + 9 < g <= Span(s, p + 9, IsSpace) :: NameFrom(s, g).None?
  {
    if !LitAt(s, p, "Campaign:") then None
    else
      var hi := Span(s, p + 9, IsSpace);
      assert forall g: nat | g <= |s| :: Names(s)(g) == NameFrom(s, g);
      var m := Last(p + 10, hi, Names(s));
      if m.None? then None
      else Some(DetailPos(Group(m.value.0, m.value.1.0), m.value.1.1))
  }

  /** The groups of a detail match, in order, the name on one line and both figures numbers. */
  predicate DetailShape(s: string, m: DetailPos) {
    && m.name.lo <= m.name.hi <= |s| && AllIn(s, m.name.lo, m.name.hi, NotNewline)
    && m.name.hi < m.tail.quantity.lo < m.tail.quantity.hi < m.tail.count.lo < m.tail.count.hi
    && m.tail.count.hi < m.tail.amount.lo < m.tail.amount.hi <= |s|
    && NumberText(Slice(s, m.tail.quantity)) && NumberText(Slice(s, m.tail.amount))
  }

  lemma DetailShapeOf(s: string, p: nat)
    requires DetailAt(s, p).Some?
    ensures DetailShape(s, DetailAt(s, p).value) && p < DetailAt(s, p).value.name.lo
  {
  }

  // ---------------------------------------------------------------------------
  // finditer
  // ---------------------------------------------------------------------------

  function DetailAts(s: string): nat -> Option<(nat, DetailPos)> {
    (p: nat) => if DetailAt(s, p).Some? then Some((DetailEnd(DetailAt(s, p).value), DetailAt(s, p).value)) else None
  }

  /** A match always ends after it starts, so `re.finditer` moves on. */
  lemma DetailAtsAdvance(s: string)
    ensures forall p: nat :: DetailAts(s)(p).Some? ==> p < DetailAts(s)(p).value.0 <= |s|
  {
    forall p: nat | DetailAts(s)(p).Some? ensures p < DetailAts(s)(p).value.0 <= |s| {
      DetailShapeOf(s, p);
    }
  }

  /** `detail_pattern.finditer(detail_text)`: each match's start, end and groups, in order. */
  function FindDetails(s: string): (r: seq<(nat, nat, DetailPos)>)
    ensures forall k | 0 <= k < |r| :: DetailAt(s, r[k].0) == Some(r[k].2) && r[k].1 == DetailEnd(r[k].2)
    ensures forall k | 0 <= k < |r| - 1 :: r[k].1 <= r[k + 1].0
  {
    DetailAtsAdvance(s);
    FindAll(s, 0, DetailAts(s))
  }

  /** Matches do not overlap, and no match starts before the first one or between two of them. */
  lemma FindDetailsGaps(s: string, k: nat)
    requires k < |FindDetails(s)|
    ensures var r := FindDetails(s);
      forall p | (if k == 0 then 0 else r[k - 1].1) <= p < r[k].0 :: DetailAt(s, p).None?
  {
    DetailAtsAdvance(s);
    FindAllGaps(s, 0, DetailAts(s), k);
    var r := FindDetails(s);
    forall p | (if k == 0 then 0 else r[k - 1].1) <= p < r[k].0 ensures DetailAt(s, p).None? {
      assert DetailAts(s)(p).None?;
    }
  }

  /** No match at all means the pattern matches nowhere. */
  lemma FindDetailsNone(s: string)
    requires FindDetails(s) == []
    ensures forall p | 0 <= p <= |s| :: DetailAt(s, p).None?
  {
    DetailAtsAdvance(s);
    forall p | 0 <= p <= |s| ensures DetailAt(s, p).None? {
      assert DetailAts(s)(p).None?;
    }
  }

  // ---------------------------------------------------------------------------
  // Rows
  // ---------------------------------------------------------------------------

  /** A detail row: the campaign, the quantity and the amount as floats, and the row type. */
  datatype DetailRow = DetailRow(
    invoiceType: string, invoiceNum: string, month: string,
    campaign: string, quantity: Decimal, amount: Decimal, rowType: string)

  /** The header fields every detail row repeats, and its row type. */
  predicate CarriesHeader(row: DetailRow, h: Header) {
    row.invoiceType == InvoiceType && row.invoiceNum == h.invoiceNum && row.month == h.month && row.rowType == "detail"
  }

  /** The row of a match: the name stripped, the two figures read by `float`. */
  function RowOf(s: string, m: DetailPos, h: Header): (r: DetailRow)
    requires DetailShape(s, m)
    ensures CarriesHeader(r, h) && Stripped(r.campaign) && |r.campaign| <= m.name.hi - m.name.lo
  {
    DetailRow(InvoiceType, h.invoiceNum, h.month, Strip(Slice(s, m.name)),
      NumberValue(Slice(s, m.tail.quantity)), NumberValue(Slice(s, m.tail.amount)), "detail")
  }

  /** The row of one entry of `FindDetails`; every entry is a match at its start, so every entry has one. */
  function MatchRows(s: string, h: Header): ((nat, nat, DetailPos)) -> Option<DetailRow> {
    (x: (nat, nat, DetailPos)) =>
      if DetailAt(s, x.0) == Some(x.2) then DetailShapeOf(s, x.0); Some(RowOf(s, x.2, h))
      else None
  }

  /** The detail rows, one per match, in order. */
  function DetailRows(s: string, h: Header): seq<DetailRow> {
    Collect(FindDetails(s), MatchRows(s, h))
  }

  /**
   * Every match gives a row: the rows are as many as the matches, and each
   * is the row of its match.
   */
  lemma DetailRowsSpec(s: string, h: Header)
    ensures var ms := FindDetails(s);
      |DetailRows(s, h)| == |ms| &&
      forall k | 0 <= k < |ms| :: DetailShape(s, ms[k].2) && DetailRows(s, h)[k] == RowOf(s, ms[k].2, h)
  {
    var ms, f := FindDetails(s), MatchRows(s, h);
    forall k | 0 <= k < |ms| ensures DetailShape(s, ms[k].2) && f(ms[k]) == Some(RowOf(s, ms[k].2, h)) {
      DetailShapeOf(s, ms[k].0);
    }
    CollectAll(ms, f);
  }

  /** Every detail row carries the summary's invoice number and month, and the row type "detail". */
  lemma DetailRowsCarryHeader(s: string, h: Header)
    ensures forall row | row in DetailRows(s, h) :: CarriesHeader(row, h) && Stripped(row.campaign)
  {
    DetailRowsSpec(s, h);
    var rows := DetailRows(s, h);
    forall row | row in rows ensures CarriesHeader(row, h) && Stripped(row.campaign) {
      var k :| 0 <= k < |rows| && rows[k] == row;
    }
  }

  /** The `for match in detail_pattern.finditer(...)` loop. */
  method Details(s: string, h: Header) returns (rows: seq<DetailRow>)
    ensures rows == DetailRows(s, h)
  {
    var ms := FindDetails(s);
    ghost var f := MatchRows(s, h);
    rows := [];
    var i := 0;
    assert ms[..0] == [];
    while i < |ms|
      invariant 0 <= i <= |ms|
      invariant rows == Collect(ms[..i], f)
    {
      var x := ms[i];
      DetailShapeOf(s, x.0);
      CollectStep(ms, i, f);
      rows := rows + [RowOf(s, x.2, h)];
      i := i + 1;
    }
    assert ms[..i] == ms;
  }

  /**
   * The LinkedIn extractor: a one-row summary read from the summary text,
   * and the detail rows of the detail text, which repeat the summary's
   * invoice number and month.
   */
  method Extract(summaryText: string, detailText: string) returns (summary: seq<SummaryRow>, details: seq<DetailRow>)
    ensures |summary| == 1 && summary[0] == SummaryOf(summaryText)
    ensures details == DetailRows(detailText, HeaderOf(summaryText))
  {
    summary := [SummaryOf(summaryText)];
    details := Details(detailText, HeaderOf(summaryText));
  }
}
