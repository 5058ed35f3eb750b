/**
 * The Display & Video 360 extractor (`extract_dv360`): header fields from the
 * summary text with sentinel defaults, a pass that merges the detail text's
 * lines into blocks that each start at a keyword line, and a per-block line
 * item pattern whose numeric conversions skip the block when they fail.
 */
module Dv360 {
  import opened Options
  import opened Text
  import opened Scan
  import opened Patterns
  import opened Numbers

  // ---------------------------------------------------------------------------
  // Invoice number[:\s]*([\d\-]+)   (IGNORECASE)
  // ---------------------------------------------------------------------------

  /** Any way the invoice-number pattern can match at `p`, with the group `s[g.lo..g.hi]`. */
  predicate InvoiceNumberParse(s: string, p: nat, g: Group) {
    && LitAtCI(s, p, "invoice number")
    && AllIn(s, p + 14, g.lo, ColonOrSpace)
    && g.lo < g.hi && AllIn(s, g.lo, g.hi, DigitOrDash)
  }

  function InvoiceNumberAt(s: string, p: nat): (r: Option<Group>)
    ensures r.Some? ==> p + 14 <= r.value.lo < r.value.hi <= |s|
  {
    if !LitAtCI(s, p, "invoice number") then None
    else
      var j := Span(s, p + 14, ColonOrSpace);
      var k := Span(s, j, DigitOrDash);
      if j < k then Some(Group(j, k)) else None
  }

  /** What is found parses, and its group is the longest run of digits and dashes. */
  lemma InvoiceNumberAtSound(s: string, p: nat)
    requires InvoiceNumberAt(s, p).Some?
    ensures InvoiceNumberParse(s, p, InvoiceNumberAt(s, p).value)
    ensures var g := InvoiceNumberAt(s, p).value; g.hi == |s| || !DigitOrDash(s[g.hi])
  {
    SpanRun(s, p + 14, ColonOrSpace);
    SpanRun(s, InvoiceNumberAt(s, p).value.lo, DigitOrDash);
  }

  /** Every parse at `p` is found, with the same start and the longest run. */
  lemma InvoiceNumberAtComplete(s: string, p: nat, g: Group)
    requires InvoiceNumberParse(s, p, g)
    ensures InvoiceNumberAt(s, p).Some? && InvoiceNumberAt(s, p).value.lo == g.lo && g.hi <= InvoiceNumberAt(s, p).value.hi
  {
    assert !ColonOrSpace(s[g.lo]) by {
      assert DigitOrDash(s[g.lo]);
    }
    RunStops(s, p + 14, g.lo, ColonOrSpace);
    RunWithin(s, g.lo, g.hi, DigitOrDash);
  }

  function FindInvoiceNumber(s: string): (r: Option<(nat, Group)>)
    ensures r.Some? ==> r.value.0 <= |s| && InvoiceNumberAt(s, r.value.0) == Some(r.value.1)
    ensures r.Some? ==> forall p: nat | p < r.value.0 :: InvoiceNumberAt(s, p).None?
    ensures r.None? ==> forall p: nat | p <= |s| :: InvoiceNumberAt(s, p).None?
  {
    var at: nat -> Option<Group> := (p: nat) => InvoiceNumberAt(s, p);
    var r := Search(s, at);
    assert r.Some? ==> at(r.value.0) == InvoiceNumberAt(s, r.value.0);
    assert forall p: nat :: at(p) == InvoiceNumberAt(s, p);
    r
  }

  // ---------------------------------------------------------------------------
  // Summary for\s+([A-Za-z]+\s+\d{1,2},\s+\d{4})\s*-\s*([A-Za-z]+\s+\d{1,2},\s+\d{4})
  // ---------------------------------------------------------------------------

  /** `[A-Za-z]+\s+\d{1,2},\s+\d{4}` matches from `a`, the word ending at `m.a`. */
  predicate WordDateParse(s: string, a: nat, m: DatePos) {
    a < m.a && AllIn(s, a, m.a, IsAlpha) && DateTailParse(s, false, m)
  }

  /** The date at `a`: the letter run cannot give anything back, since whitespace must follow it. */
  function WordDateAt(s: string, a: nat): (r: Option<DatePos>)
    ensures r.Some? ==> a < r.value.a && r.value.d + 4 <= |s|
  {
    if a > |s| then None
    else
      var w := Span(s, a, IsAlpha);
      if a < w then DateTailAt(s, w, false) else None
  }

  lemma WordDateAtSound(s: string, a: nat)
    requires WordDateAt(s, a).Some?
    ensures WordDateParse(s, a, WordDateAt(s, a).value)
  {
    SpanRun(s, a, IsAlpha);
    DateTailAtSound(s, Span(s, a, IsAlpha), false);
  }

  lemma WordDateAtComplete(s: string, a: nat, m: DatePos)
    requires WordDateParse(s, a, m)
    ensures WordDateAt(s, a) == Some(m)
  {
    assert !IsAlpha(s[m.a]) by {
      assert IsSpace(s[m.a]);
    }
    RunStops(s, a, m.a, IsAlpha);
    DateTailAtComplete(s, false, m);
  }

  /** The two dates of a match: the first from `start1`, the dash at `dash`, the second from `start2`. */
  datatype RangePos = RangePos(start1: nat, first: DatePos, dash: nat, start2: nat, second: DatePos)

  /**
   * A recogniser of dates in `s`: what it reads lies in `s` and starts with
   * a character that no whitespace run can take. The range pattern is
   * stated over any such `date`, so that the proofs about the range need
   * not look into how a date is read.
   */
  ghost predicate DateReader(s: string, date: nat -> Option<DatePos>) {
    forall a: nat :: date(a).Some? ==> a < |s| && !IsSpace(s[a]) && a < date(a).value.a < date(a).value.d && date(a).value.d + 4 <= |s|
  }

  /** Any way the summary-range pattern can match at `p`, with the dates as `date` reads them. */
  predicate RangeParseWith(s: string, p: nat, m: RangePos, date: nat -> Option<DatePos>) {
    && LitAt(s, p, "Summary for")
    && p + 11 < m.start1 && AllIn(s, p + 11, m.start1, IsSpace)
    && date(m.start1) == Some(m.first)
    && AllIn(s, m.first.d + 4, m.dash, IsSpace) && m.dash < |s| && s[m.dash] == '-'
    && AllIn(s, m.dash + 1, m.start2, IsSpace)
    && date(m.start2) == Some(m.second)
  }

  /** `\s+` then a date, from `i`: where the date starts and what it reads. */
  function SpacedDate(s: string, i: nat, date: nat -> Option<DatePos>): (r: Option<(nat, DatePos)>)
    requires DateReader(s, date)
    ensures r.Some? ==> i < r.value.0 && AllIn(s, i, r.value.0, IsSpace) && date(r.value.0) == Some(r.value.1)
  {
    if i > |s| then None
    else
      var a := Span(s, i, IsSpace);
      SpanRun(s, i, IsSpace);
      if a == i then None
      else match date(a)
        case None => None
        case Some(d) => Some((a, d))
  }

  /** `\s*-\s*` then a date, from `e`: the dash, where the date starts and what it reads. */
  function DashedDate(s: string, e: nat, date: nat -> Option<DatePos>): (r: Option<(nat, nat, DatePos)>)
    requires DateReader(s, date)
    ensures r.Some? ==> AllIn(s, e, r.value.0, IsSpace) && r.value.0 < |s| && s[r.value.0] == '-'
    ensures r.Some? ==> AllIn(s, r.value.0 + 1, r.value.1, IsSpace) && date(r.value.1) == Some(r.value.2)
  {
    if e > |s| then None
    else
      var x := Span(s, e, IsSpace);
      SpanRun(s, e, IsSpace);
      if x < |s| && s[x] == '-' then
        var y := Span(s, x + 1, IsSpace);
        SpanRun(s, x + 1, IsSpace);
        match date(y)
        case None => None
        case Some(d) => Some((x, y, d))
      else None
  }

  /** The dates after "Summary for", from `i`. */
  function DatesFrom(s: string, i: nat, date: nat -> Option<DatePos>): (r: Option<RangePos>)
    requires DateReader(s, date)
    ensures r.Some? ==> i < r.value.start1 < r.value.first.d + 4 <= r.value.dash < r.value.start2 < r.value.second.d + 4 <= |s|
    ensures r.Some? ==> AllIn(s, i, r.value.start1, IsSpace) && date(r.value.start1) == Some(r.value.first)
    ensures r.Some? ==> AllIn(s, r.value.first.d + 4, r.value.dash, IsSpace) && r.value.dash < |s| && s[r.value.dash] == '-'
    ensures r.Some? ==> AllIn(s, r.value.dash + 1, r.value.start2, IsSpace) && date(r.value.start2) == Some(r.value.second)
  {
    match SpacedDate(s, i, date)
    case None => None
    case Some((a, first)) =>
      match DashedDate(s, first.d + 4, date)
      case None => None
      case Some((x, y, second)) => Some(RangePos(a, first, x, y, second))
  }

  /** The match at `p`, which parses. */
  function RangeWith(s: string, p: nat, date: nat -> Option<DatePos>): (r: Option<RangePos>)
    requires DateReader(s, date)
    ensures r.Some? ==> p + 11 < r.value.start1 < r.value.first.d + 4 <= r.value.dash < r.value.start2 < r.value.second.d + 4 <= |s|
    ensures r.Some? ==> RangeParseWith(s, p, r.value, date)
  {
    if !LitAt(s, p, "Summary for") then None else DatesFrom(s, p + 11, date)
  }

  lemma SpacedDateComplete(s: string, i: nat, a: nat, d: DatePos, date: nat -> Option<DatePos>)
    requires DateReader(s, date) && i < a && AllIn(s, i, a, IsSpace) && date(a) == Some(d)
    ensures SpacedDate(s, i, date) == Some((a, d))
  {
    RunStops(s, i, a, IsSpace);
  }

  lemma DashedDateComplete(s: string, e: nat, x: nat, y: nat, d: DatePos, date: nat -> Option<DatePos>)
    requires DateReader(s, date) && AllIn(s, e, x, IsSpace) && x < |s| && s[x] == '-'
    requires AllIn(s, x + 1, y, IsSpace) && date(y) == Some(d)
    ensures DashedDate(s, e, date) == Some((x, y, d))
  {
    RunStops(s, e, x, IsSpace);
    RunStops(s, x + 1, y, IsSpace);
  }

  /** Every parse at `p` is the one found: each run is followed by a character it cannot take. */
  lemma RangeWithComplete(s: string, p: nat, m: RangePos, date: nat -> Option<DatePos>)
    requires DateReader(s, date) && RangeParseWith(s, p, m, date)
    ensures RangeWith(s, p, date) == Some(m)
  {
    DatesFromComplete(s, p + 11, m, date);
  }

  lemma DatesFromComplete(s: string, i: nat, m: RangePos, date: nat -> Option<DatePos>)
    requires DateReader(s, date) && i < m.start1 && AllIn(s, i, m.start1, IsSpace) && date(m.start1) == Some(m.first)
    requires AllIn(s, m.first.d + 4, m.dash, IsSpace) && m.dash < |s| && s[m.dash] == '-'
    requires AllIn(s, m.dash + 1, m.start2, IsSpace) && date(m.start2) == Some(m.second)
    ensures DatesFrom(s, i, date) == Some(m)
  {
    SpacedDateComplete(s, i, m.start1, m.first, date);
    DashedDateComplete(s, m.first.d + 4, m.dash, m.start2, m.second, date);
    DatesFromSteps(s, i, m, date);
  }

  /** The two steps of `DatesFrom`, each ending where `m` says, give `m`. */
  lemma DatesFromSteps(s: string, i: nat, m: RangePos, date: nat -> Option<DatePos>)
    requires DateReader(s, date) && SpacedDate(s, i, date) == Some((m.start1, m.first))
    requires DashedDate(s, m.first.d + 4, date) == Some((m.dash, m.start2, m.second))
    ensures DatesFrom(s, i, date) == Some(m)
  {
  }

  /** `[A-Za-z]+\s+\d{1,2},\s+\d{4}` as a recogniser over `s`. */
  function WordDates(s: string): nat -> Option<DatePos> {
    (a: nat) => WordDateAt(s, a)
  }

  lemma WordDatesRead(s: string)
    ensures DateReader(s, WordDates(s))
  {
    forall a: nat | WordDates(s)(a).Some?
      ensures a < |s| && !IsSpace(s[a])
    {
      SpanRun(s, a, IsAlpha);
    }
  }

  /**
   * Any way the summary-range pattern can match at `p`. Each date is what
   * `WordDateAt` reads there, and `WordDateAtSound` and `WordDateAtComplete`
   * show those to be exactly the parses of the date pattern.
   */
  predicate RangeParse(s: string, p: nat, m: RangePos) {
    RangeParseWith(s, p, m, WordDates(s))
  }

  /** The match at `p`, which parses. */
  function RangeAt(s: string, p: nat): (r: Option<RangePos>)
    ensures r.Some? ==> p + 11 < r.value.start1 < r.value.first.d + 4 <= r.value.dash < r.value.start2 < r.value.second.d + 4 <= |s|
    ensures r.Some? ==> RangeParse(s, p, r.value)
  {
    WordDatesRead(s);
    RangeWith(s, p, WordDates(s))
  }

  /** A parse is the one that is found: the pattern has one way to match at `p`. */
  lemma RangeAtComplete(s: string, p: nat, m: RangePos)
    requires RangeParse(s, p, m)
    ensures RangeAt(s, p) == Some(m)
  {
    WordDatesRead(s);
    RangeWithComplete(s, p, m, WordDates(s));
  }

  function FindRange(s: string): (r: Option<(nat, RangePos)>)
    ensures r.Some? ==> r.value.0 <= |s| && RangeAt(s, r.value.0) == Some(r.value.1)
    ensures r.Some? ==> forall p: nat | p < r.value.0 :: RangeAt(s, p).None?
    ensures r.None? ==> forall p: nat | p <= |s| :: RangeAt(s, p).None?
  {
    var at: nat -> Option<RangePos> := (p: nat) => RangeAt(s, p);
    var r := Search(s, at);
    assert r.Some? ==> at(r.value.0) == RangeAt(s, r.value.0);
    assert forall p: nat :: at(p) == RangeAt(s, p);
    r
  }

  // ---------------------------------------------------------------------------
  // Total amount due.*?\$([\d,]+\.\d{2})
  // ---------------------------------------------------------------------------

  /** `\$([\d,]+\.\d{2})` at `q`: the point of the amount that starts at `q + 1`. */
  function DollarAmountAt(s: string, q: nat): (r: Option<nat>)
    ensures r.Some? ==> q < |s| && s[q] == '$' && AmountParse(s, q + 1, r.value)
  {
    if q < |s| && s[q] == '$' then AmountAt(s, q + 1) else None
  }

  /** Any way the total pattern can match at `p`: the `$` at `q`, the amount's point at `pt`. */
  predicate TotalDueParse(s: string, p: nat, q: nat, pt: nat) {
    && LitAt(s, p, "Total amount due")
    && p + 16 <= q && AllIn(s, p + 16, q, NotNewline)
    && DollarAmountAt(s, q) == Some(pt)
  }

  /** The match at `p`: the lazy `.*?` stops at the first `$` on the line that an amount follows. */
  function TotalDueAt(s: string, p: nat): (r: Option<(nat, nat)>)
    ensures r.Some? ==> p + 16 <= r.value.0 && r.value.0 < |s| && r.value.0 < r.value.1 && r.value.1 + 3 <= |s|
  {
    if !LitAt(s, p, "Total amount due") then None
    else
      var at: nat -> Option<nat> := (q: nat) => DollarAmountAt(s, q);
      First(p + 16, LazyEndMax(s, p + 16, false), at)
  }

  /** What is found parses, and no `$`-amount comes earlier on the line. */
  lemma TotalDueAtSound(s: string, p: nat)
    requires TotalDueAt(s, p).Some?
    ensures TotalDueParse(s, p, TotalDueAt(s, p).value.0, TotalDueAt(s, p).value.1)
    ensures forall q | p + 16 <= q < TotalDueAt(s, p).value.0 :: DollarAmountAt(s, q).None?
  {
    var at: nat -> Option<nat> := (q: nat) => DollarAmountAt(s, q);
    var r := TotalDueAt(s, p).value;
    assert forall q | p + 16 <= q < r.0 :: at(q) == DollarAmountAt(s, q);
    assert at(r.0) == DollarAmountAt(s, r.0);
  }

  /** Whenever the total pattern can match at `p`, the match at `p` is found. */
  lemma TotalDueAtComplete(s: string, p: nat, q: nat, pt: nat)
    requires TotalDueParse(s, p, q, pt)
    ensures TotalDueAt(s, p).Some?
  {
    RunWithin(s, p + 16, q, NotNewline);
    var at: nat -> Option<nat> := (q': nat) => DollarAmountAt(s, q');
    assert at(q).Some?;
  }

  function FindTotalDue(s: string): (r: Option<(nat, (nat, nat))>)
    ensures r.Some? ==> r.value.0 <= |s| && TotalDueAt(s, r.value.0) == Some(r.value.1)
    ensures r.Some? ==> forall p: nat | p < r.value.0 :: TotalDueAt(s, p).None?
    ensures r.None? ==> forall p: nat | p <= |s| :: TotalDueAt(s, p).None?
  {
    var at: nat -> Option<(nat, nat)> := (p: nat) => TotalDueAt(s, p);
    var r := Search(s, at);
    assert r.Some? ==> at(r.value.0) == TotalDueAt(s, r.value.0);
    assert forall p: nat :: at(p) == TotalDueAt(s, p);
    r
  }

  // ---------------------------------------------------------------------------
  // Header fields, with "N/A" and 0.0 where their patterns miss
  // ---------------------------------------------------------------------------

  /** The header of a DV360 invoice: its number, the billed date range and the total due. */
  datatype Header = Header(invoiceNum: string, month: string, total: Decimal)

  /** The text of the date read from `start`. */
  function DateText(s: string, start: nat, d: DatePos): string
    requires start <= d.d + 4 <= |s|
  {
    s[start..d.d + 4]
  }

  /** The total of a match whose amount has its point at `pt`: `float(group(1).replace(",", ""))`. */
  function TotalValue(s: string, q: nat, pt: nat): (r: Decimal)
    requires DollarAmountAt(s, q) == Some(pt)
    ensures AmountValue(s, q + 1, pt, r)
  {
    AmountDecimal(s, q + 1, pt)
  }

  /** `group(1)` of the invoice-number search, or "N/A". */
  function InvoiceNumberField(s: string): (r: string)
    ensures r == "N/A" <==> FindInvoiceNumber(s).None?
    ensures r != "N/A" ==> r != [] && AllIn(r, 0, |r|, DigitOrDash)
  {
    match FindInvoiceNumber(s)
    case None => "N/A"
    case Some((p, g)) =>
      InvoiceNumberDigits(s, p);
      assert s[g.lo..g.hi][0] == s[g.lo];
      s[g.lo..g.hi]
  }

  /** "start - end" from the two dates of the summary-range search, or "N/A". */
  function MonthField(s: string): (r: string)
    ensures r == "N/A" <==> FindRange(s).None?
    ensures FindRange(s).Some? ==> var (p, m) := FindRange(s).value;
      RangeParse(s, p, m) && r == DateText(s, m.start1, m.first) + " - " + DateText(s, m.start2, m.second)
  {
    match FindRange(s)
    case None => "N/A"
    case Some((_, m)) => DateText(s, m.start1, m.first) + " - " + DateText(s, m.start2, m.second)
  }

  /** `float` of the total-due amount without its commas, or 0.0. */
  function TotalField(s: string): (r: Decimal)
    ensures FindTotalDue(s).None? ==> r == Decimal(0, 0)
    ensures FindTotalDue(s).Some? ==> var (_, (q, pt)) := FindTotalDue(s).value;
      AmountValue(s, q + 1, pt, r)
  {
    match FindTotalDue(s)
    case None => Decimal(0, 0)
    case Some((p, (q, pt))) =>
      TotalDueAtDollar(s, p);
      TotalValue(s, q, pt)
  }

  lemma TotalDueAtDollar(s: string, p: nat)
    requires TotalDueAt(s, p).Some?
    ensures DollarAmountAt(s, TotalDueAt(s, p).value.0) == Some(TotalDueAt(s, p).value.1)
  {
    TotalDueAtSound(s, p);
  }

  function HeaderOf(summaryText: string): Header {
    Header(InvoiceNumberField(summaryText), MonthField(summaryText), TotalField(summaryText))
  }

  /** The captured invoice number is digits and dashes, so it never reads as the sentinel "N/A". */
  lemma InvoiceNumberDigits(s: string, p: nat)
    requires InvoiceNumberAt(s, p).Some?
    ensures var g := InvoiceNumberAt(s, p).value; AllIn(s[g.lo..g.hi], 0, g.hi - g.lo, DigitOrDash)
  {
    var g := InvoiceNumberAt(s, p).value;
    SpanRun(s, g.lo, DigitOrDash);
    assert forall k | 0 <= k < g.hi - g.lo :: s[g.lo..g.hi][k] == s[g.lo + k];
  }

  // ---------------------------------------------------------------------------
  // The line item pattern, searched in each merged block:
  //   (?P<fee_type>.+?)\s*-\s*Partner:\s*(?P<partner>.+?)
  //   \s*-\s*Constellation ID:\s*(?P<partner_id>\d+)
  //   \s*-\s*Advertiser:\s*(?P<advertiser>.+?)\s*ID:\s*(?P<advertiser_id>\d+)
  //   \s+(?P<quantity>[-\d,]+)\s+(?P<uom>\w+)\s+(?P<amount>[-\d,.]+)
  // Each lazy group tries its ends left to right, and for each end the rest
  // of the pattern is tried in full; the `\s*` before a lazy group first
  // takes all the whitespace and gives it back one character at a time.
  // ---------------------------------------------------------------------------

  /** `[-\d,]` */
  predicate QuantityChar(c: char) { IsDigit(c) || c == '-' || c == ',' }

  /** `[-\d,.]` */
  predicate FigureChar(c: char) { IsDigit(c) || c == '-' || c == ',' || c == '.' }

  /** The groups after the advertiser's name. */
  datatype Figures = Figures(advertiserId: Group, quantity: Group, uom: Group, amount: Group)

  /** The classes and order of the figures' groups, all after `e`. */
  predicate FiguresShape(s: string, e: nat, f: Figures) {
    && e < f.advertiserId.lo && f.advertiserId.hi < f.quantity.lo && f.quantity.hi < f.uom.lo && f.uom.hi < f.amount.lo
    && AllIn(s, f.advertiserId.lo, f.advertiserId.hi, IsDigit) && f.advertiserId.lo < f.advertiserId.hi
    && AllIn(s, f.quantity.lo, f.quantity.hi, QuantityChar) && f.quantity.lo < f.quantity.hi
    && AllIn(s, f.uom.lo, f.uom.hi, IsWord) && f.uom.lo < f.uom.hi
    && AllIn(s, f.amount.lo, f.amount.hi, FigureChar) && f.amount.lo < f.amount.hi
  }

  /** `\s+(?P<uom>\w+)\s+(?P<amount>[-\d,.]+)` at `i`. */
  function UnitAt(s: string, i: nat): (r: Option<(Group, Group)>)
    ensures r.Some? ==> var (u, a) := r.value;
      && i < u.lo < u.hi < a.lo < a.hi <= |s|
      && AllIn(s, i, u.lo, IsSpace) && AllIn(s, u.lo, u.hi, IsWord)
      && AllIn(s, u.hi, a.lo, IsSpace) && AllIn(s, a.lo, a.hi, FigureChar)
  {
    match RunAt(s, i, IsSpace)
    case None => None
    case Some(u0) =>
      match RunAt(s, u0, IsWord)
      case None => None
      case Some(u1) =>
        match RunAt(s, u1, IsSpace)
        case None => None
        case Some(a0) =>
          match RunAt(s, a0, FigureChar)
          case None => None
          case Some(a1) => Some((Group(u0, u1), Group(a0, a1)))
  }

  /** `\s+(?P<quantity>[-\d,]+)\s+(?P<uom>\w+)\s+(?P<amount>[-\d,.]+)` at `i`. */
  function CountsAt(s: string, i: nat): (r: Option<(Group, Group, Group)>)
    ensures r.Some? ==> var (q, u, a) := r.value;
      && i < q.lo < q.hi < u.lo < u.hi < a.lo < a.hi <= |s|
      && AllIn(s, i, q.lo, IsSpace) && AllIn(s, q.lo, q.hi, QuantityChar)
      && AllIn(s, q.hi, u.lo, IsSpace) && AllIn(s, u.lo, u.hi, IsWord)
      && AllIn(s, u.hi, a.lo, IsSpace) && AllIn(s, a.lo, a.hi, FigureChar)
  {
    match RunAt(s, i, IsSpace)
    case None => None
    case Some(q0) =>
      match RunAt(s, q0, QuantityChar)
      case None => None
      case Some(q1) =>
        match UnitAt(s, q1)
        case None => None
        case Some((u, a)) => Some((Group(q0, q1), u, a))
  }

  /** `\s*ID:\s*(?P<advertiser_id>\d+)` at `e`: the id's digits. */
  function IdAt(s: string, e: nat): (r: Option<Group>)
    ensures r.Some? ==> e < r.value.lo < r.value.hi <= |s| && AllIn(s, r.value.lo, r.value.hi, IsDigit)
  {
    if e > |s| then None
    else
      var x := Span(s, e, IsSpace);
      if !LitAt(s, x, "ID:") then None
      else
        var d := Span(s, x + 3, IsSpace);
        match RunAt(s, d, IsDigit)
        case None => None
        case Some(d1) => Some(Group(d, d1))
  }

  /** `\s*ID:\s*(?P<advertiser_id>\d+)` and the counts after it, at `e`. */
  function FiguresAt(s: string, e: nat): (r: Option<Figures>)
    ensures r.Some? ==> FiguresShape(s, e, r.value) && r.value.amount.hi <= |s|
  {
    match IdAt(s, e)
    case None => None
    case Some(id) =>
      match CountsAt(s, id.hi)
      case None => None
      case Some((q, u, a)) => Some(Figures(id, q, u, a))
  }

  function FiguresFrom(s: string): nat -> Option<Figures> {
    (e: nat) => FiguresAt(s, e)
  }

  /** `(?P<advertiser>.+?)` from `a` and the figures after it: the name's end and the figures. */
  function AdvertiserNameAt(s: string, a: nat): (r: Option<(nat, Figures)>)
    ensures r.Some? ==> a < r.value.0 <= |s| && AllIn(s, a, r.value.0, NotNewline) && FiguresAt(s, r.value.0) == Some(r.value.1)
    ensures r.Some? ==> forall e | a < e < r.value.0 :: FiguresAt(s, e).None?
    ensures r.None? && a <= |s| ==> forall e | a < e <= LazyEndMax(s, a, false) :: FiguresAt(s, e).None?
  {
    if a > |s| then None
    else
      assert forall e: nat :: FiguresFrom(s)(e) == FiguresAt(s, e);
      First(a + 1, LazyEndMax(s, a, false), FiguresFrom(s))
  }

  function AdvertiserNamesFrom(s: string): nat -> Option<(nat, Figures)> {
    (a: nat) => AdvertiserNameAt(s, a)
  }

  /** `\s*(?P<advertiser>.+?)` from `i`: the `\s*` keeps as much whitespace as still lets the rest match. */
  function AdvertiserAt(s: string, i: nat): (r: Option<(Group, Figures)>)
    ensures r.Some? ==> i <= r.value.0.lo < r.value.0.hi && AllIn(s, i, r.value.0.lo, IsSpace)
    ensures r.Some? ==> AdvertiserNameAt(s, r.value.0.lo) == Some((r.value.0.hi, r.value.1))
    ensures r.Some? ==> r.value.0.lo <= Span(s, i, IsSpace) && forall a | r.value.0.lo < a <= Span(s, i, IsSpace) :: AdvertiserNameAt(s, a).None?
    ensures r.None? && i <= |s| ==> forall a | i <= a <= Span(s, i, IsSpace) :: AdvertiserNameAt(s, a).None?
  {
    if i > |s| then None
    else
      SpanRun(s, i, IsSpace);
      assert forall a: nat :: AdvertiserNamesFrom(s)(a) == AdvertiserNameAt(s, a);
      match Last(i, Span(s, i, IsSpace), AdvertiserNamesFrom(s))
      case None => None
      case Some((a, (e, f))) => Some((Group(a, e), f))
  }

  /** The groups after the partner's name. */
  datatype PartnerTail = PartnerTail(partnerId: Group, advertiser: Group, figures: Figures)

  /** `\s*-\s*Constellation ID:\s*(?P<partner_id>\d+)` at `e`: the id's digits. */
  function ConstellationIdAt(s: string, e: nat): (r: Option<Group>)
    ensures r.Some? ==> e < r.value.lo < r.value.hi <= |s| && AllIn(s, r.value.lo, r.value.hi, IsDigit)
    ensures SepAt(s, e, "Constellation ID:").None? ==> r.None?
  {
    match SepAt(s, e, "Constellation ID:")
    case None => None
    case Some((_, y)) =>
      var z := Span(s, y + 17, IsSpace);
      match RunAt(s, z, IsDigit)
      case None => None
      case Some(z1) => Some(Group(z, z1))
  }

  /** `\s*-\s*Advertiser:` at `z`, then the advertiser and the figures. */
  function AdvertiserOpenAt(s: string, z: nat): (r: Option<(Group, Figures)>)
    ensures r.Some? ==> z < r.value.0.lo && AllIn(s, r.value.0.lo, r.value.0.hi, NotNewline)
    ensures r.Some? ==> FiguresAt(s, r.value.0.hi) == Some(r.value.1)
  {
    match SepAt(s, z, "Advertiser:")
    case None => None
    case Some((_, v)) =>
      var r := AdvertiserAt(s, v + 11);
      assert r.Some? ==> AdvertiserNameAt(s, r.value.0.lo) == Some((r.value.0.hi, r.value.1));
      r
  }

  /**
   * `\s*-\s*Constellation ID:\s*(?P<partner_id>\d+)\s*-\s*Advertiser:` at `e`,
   * then the advertiser and the figures.
   */
  function PartnerTailAt(s: string, e: nat): (r: Option<PartnerTail>)
    ensures r.Some? ==> e < r.value.partnerId.lo < r.value.partnerId.hi < r.value.advertiser.lo
    ensures r.Some? ==> AllIn(s, r.value.partnerId.lo, r.value.partnerId.hi, IsDigit)
    ensures r.Some? ==> AllIn(s, r.value.advertiser.lo, r.value.advertiser.hi, NotNewline)
    ensures r.Some? ==> FiguresAt(s, r.value.advertiser.hi) == Some(r.value.figures)
    ensures SepAt(s, e, "Constellation ID:").None? ==> r.None?
  {
    match ConstellationIdAt(s, e)
    case None => None
    case Some(id) =>
      match AdvertiserOpenAt(s, id.hi)
      case None => None
      case Some((adv, f)) => Some(PartnerTail(id, adv, f))
  }

  function PartnerTailsFrom(s: string): nat -> Option<PartnerTail> {
    (e: nat) => PartnerTailAt(s, e)
  }

  /** `(?P<partner>.+?)` from `a` and the rest of the pattern after it. */
  function PartnerNameAt(s: string, a: nat): (r: Option<(nat, PartnerTail)>)
    ensures r.Some? ==> a < r.value.0 <= |s| && AllIn(s, a, r.value.0, NotNewline) && PartnerTailAt(s, r.value.0) == Some(r.value.1)
    ensures r.Some? ==> forall e | a < e < r.value.0 :: PartnerTailAt(s, e).None?
    ensures r.None? && a <= |s| ==> forall e | a < e <= LazyEndMax(s, a, false) :: PartnerTailAt(s, e).None?
  {
    if a > |s| then None
    else
      assert forall e: nat :: PartnerTailsFrom(s)(e) == PartnerTailAt(s, e);
      First(a + 1, LazyEndMax(s, a, false), PartnerTailsFrom(s))
  }

  function PartnerNamesFrom(s: string): nat -> Option<(nat, PartnerTail)> {
    (a: nat) => PartnerNameAt(s, a)
  }

  /** `\s*(?P<partner>.+?)` from `i`. */
  function PartnerAt(s: string, i: nat): (r: Option<(Group, PartnerTail)>)
    ensures r.Some? ==> i <= r.value.0.lo < r.value.0.hi && AllIn(s, i, r.value.0.lo, IsSpace)
    ensures r.Some? ==> PartnerNameAt(s, r.value.0.lo) == Some((r.value.0.hi, r.value.1))
    ensures r.Some? ==> r.value.0.lo <= Span(s, i, IsSpace) && forall a | r.value.0.lo < a <= Span(s, i, IsSpace) :: PartnerNameAt(s, a).None?
    ensures r.None? && i <= |s| ==> forall a | i <= a <= Span(s, i, IsSpace) :: PartnerNameAt(s, a).None?
  {
    if i > |s| then None
    else
      SpanRun(s, i, IsSpace);
      assert forall a: nat :: PartnerNamesFrom(s)(a) == PartnerNameAt(s, a);
      match Last(i, Span(s, i, IsSpace), PartnerNamesFrom(s))
      case None => None
      case Some((a, (e, t))) => Some((Group(a, e), t))
  }

  /** `\s*-\s*Partner:` at `e`, then the partner and the rest. */
  function FeeTailAt(s: string, e: nat): (r: Option<(Group, PartnerTail)>)
    ensures r.Some? ==> e < r.value.0.lo && PartnerNameAt(s, r.value.0.lo) == Some((r.value.0.hi, r.value.1))
    ensures SepAt(s, e, "Partner:").None? ==> r.None?
  {
    match SepAt(s, e, "Partner:")
    case None => None
    case Some((_, y)) => PartnerAt(s, y + 8)
  }

  function FeeTailsFrom(s: string): nat -> Option<(Group, PartnerTail)> {
    (e: nat) => FeeTailAt(s, e)
  }

  /** Where the groups of a line item match. */
  datatype ItemPos = ItemPos(fee: Group, partner: Group, tail: PartnerTail)

  /** The line item pattern at `p`: the fee type is the shortest one that lets the rest match. */
  function ItemAt(s: string, p: nat): (r: Option<ItemPos>)
    ensures r.Some? ==> r.value.fee.lo == p < r.value.fee.hi && AllIn(s, p, r.value.fee.hi, NotNewline)
    ensures r.Some? ==> FeeTailAt(s, r.value.fee.hi) == Some((r.value.partner, r.value.tail))
    ensures r.Some? ==> forall e | p < e < r.value.fee.hi :: FeeTailAt(s, e).None?
    ensures r.None? && p <= |s| ==> forall e | p < e <= LazyEndMax(s, p, false) :: FeeTailAt(s, e).None?
  {
    if p > |s| then None
    else
      assert forall e: nat :: FeeTailsFrom(s)(e) == FeeTailAt(s, e);
      match First(p + 1, LazyEndMax(s, p, false), FeeTailsFrom(s))
      case None => None
      case Some((e, (g, t))) => Some(ItemPos(Group(p, e), g, t))
  }

  /** `pattern.search(line)`. */
  function FindItem(s: string): (r: Option<(nat, ItemPos)>)
    ensures r.Some? ==> r.value.0 <= |s| && ItemAt(s, r.value.0) == Some(r.value.1)
    ensures r.Some? ==> forall p: nat | p < r.value.0 :: ItemAt(s, p).None?
    ensures r.None? ==> forall p: nat | p <= |s| :: ItemAt(s, p).None?
  {
    var at: nat -> Option<ItemPos> := (p: nat) => ItemAt(s, p);
    var r := Search(s, at);
    assert r.Some? ==> at(r.value.0) == ItemAt(s, r.value.0);
    assert forall p: nat :: at(p) == ItemAt(s, p);
    r
  }

  /** The groups of a line item match, in order, each with its pattern's characters. */
  predicate ItemShape(s: string, m: ItemPos) {
    && m.fee.lo < m.fee.hi < m.partner.lo < m.partner.hi < m.tail.partnerId.lo < m.tail.partnerId.hi < m.tail.advertiser.lo < m.tail.advertiser.hi
    && AllIn(s, m.fee.lo, m.fee.hi, NotNewline)
    && AllIn(s, m.partner.lo, m.partner.hi, NotNewline)
    && AllIn(s, m.tail.partnerId.lo, m.tail.partnerId.hi, IsDigit)
    && AllIn(s, m.tail.advertiser.lo, m.tail.advertiser.hi, NotNewline)
    && FiguresShape(s, m.tail.advertiser.hi, m.tail.figures) && m.tail.figures.amount.hi <= |s|
  }

  /** What the item pattern finds has the item's shape. */
  lemma ItemFigures(s: string, p: nat)
    requires ItemAt(s, p).Some?
    ensures ItemShape(s, ItemAt(s, p).value)
  {
    var m := ItemAt(s, p).value;
    assert FeeTailAt(s, m.fee.hi) == Some((m.partner, m.tail));
    assert PartnerNameAt(s, m.partner.lo) == Some((m.partner.hi, m.tail));
    assert PartnerTailAt(s, m.partner.hi) == Some(m.tail);
    assert FiguresAt(s, m.tail.advertiser.hi) == Some(m.tail.figures);
  }

  // ---------------------------------------------------------------------------
  // Rows
  // ---------------------------------------------------------------------------

  /** The one summary row. */
  datatype SummaryRow = SummaryRow(invoiceType: string, invoiceNum: string, month: string, amount: Decimal)

  /** A detail row, one per merged block that the line item pattern matches and whose figures convert. */
  datatype DetailRow = DetailRow(
    invoiceType: string, invoiceNum: string, month: string,
    feeType: string, partner: string, partnerId: string,
    advertiserName: string, advertiserId: string,
    quantity: int, uom: string, amount: Decimal)

  const InvoiceType := "Display and Video 360"

  /** `int(quantity.replace(",", ""))` */
  function QuantityOf(s: string, f: Figures): Option<int>
    requires f.quantity.lo <= f.quantity.hi <= |s|
  {
    ParseInt(RemoveCommas(s[f.quantity.lo..f.quantity.hi]))
  }

  /** `float(amount.replace(",", ""))`: the amount's characters are all ones `float` is modelled on. */
  function AmountOf(s: string, f: Figures): Option<Decimal>
    requires AllIn(s, f.amount.lo, f.amount.hi, FigureChar)
  {
    var t := s[f.amount.lo..f.amount.hi];
    assert forall k | 0 <= k < |t| :: NumeralChar(t[k]) || t[k] == ',' by {
      forall k | 0 <= k < |t| ensures NumeralChar(t[k]) || t[k] == ',' {
        assert t[k] == s[f.amount.lo + k];
      }
    }
    RemoveCommasKeepsClass(t, NumeralChar);
    ParseDecimal(RemoveCommas(t))
  }

  /**
   * The detail row of one merged block: none when the pattern misses, and
   * none when the quantity or the amount fails to convert (the `except`
   * that skips the block).
   */
  function ItemRow(line: string, h: Header): (r: Option<DetailRow>)
    ensures FindItem(line).None? ==> r.None?
    ensures FindItem(line).Some? ==> ItemShape(line, FindItem(line).value.1) && r == ItemRowOf(line, FindItem(line).value.1, h)
  {
    match FindItem(line)
    case None => None
    case Some((p, m)) =>
      ItemFigures(line, p);
      ItemRowOf(line, m, h)
  }

  /** The row built from the groups `m` of a match. */
  function ItemRowOf(s: string, m: ItemPos, h: Header): (r: Option<DetailRow>)
    requires ItemShape(s, m)
    ensures r.Some? <==> QuantityOf(s, m.tail.figures).Some? && AmountOf(s, m.tail.figures).Some?
    ensures r.Some? ==> r.value.invoiceType == InvoiceType && r.value.invoiceNum == h.invoiceNum && r.value.month == h.month
    ensures r.Some? ==> r.value.quantity == QuantityOf(s, m.tail.figures).value && r.value.amount == AmountOf(s, m.tail.figures).value
    ensures r.Some? ==> Stripped(r.value.feeType) && Stripped(r.value.partner) && Stripped(r.value.advertiserName)
    ensures r.Some? ==> r.value.partnerId == Slice(s, m.tail.partnerId) && r.value.advertiserId == Slice(s, m.tail.figures.advertiserId)
    ensures r.Some? ==> r.value.uom == Slice(s, m.tail.figures.uom)
  {
    var f := m.tail.figures;
    var quantity := QuantityOf(s, f);
    var amount := AmountOf(s, f);
    if quantity.Some? && amount.Some? then
      Some(DetailRow(InvoiceType, h.invoiceNum, h.month,
        Strip(Slice(s, m.fee)), Strip(Slice(s, m.partner)), Slice(s, m.tail.partnerId),
        Strip(Slice(s, m.tail.advertiser)), Slice(s, f.advertiserId),
        quantity.value, Slice(s, f.uom), amount.value))
    else None
  }

  // ---------------------------------------------------------------------------
  // Merging the detail text's lines into blocks
  // ---------------------------------------------------------------------------

  /** `re.search(r"(Media Cost|Platform Fee|Data Fee|Adjustment|Advertiser)", line)` */
  predicate IsKeywordLine(line: string) {
    || Contains(line, "Media Cost") || Contains(line, "Platform Fee") || Contains(line, "Data Fee")
    || Contains(line, "Adjustment") || Contains(line, "Advertiser")
  }

  /** A line as the merge keeps it: stripped and not blank. */
  predicate CleanLine(x: string) { x != [] && Stripped(x) }

  predicate AllClean(xs: seq<string>) {
    forall k | 0 <= k < |xs| :: CleanLine(xs[k])
  }

  lemma AllCleanPrefix(cl: seq<string>, i: nat)
    requires AllClean(cl) && i <= |cl|
    ensures AllClean(cl[..i])
  {
    forall k | 0 <= k < i ensures CleanLine(cl[..i][k]) { assert cl[..i][k] == cl[k]; }
  }

  /**
   * The merged lines of the clean lines `cl`: the first line and every line
   * that passes `key` start a merged line, and every other line is appended
   * to the merged line before it after a space.
   */
  function MergedLines(cl: seq<string>, key: string -> bool): (r: seq<string>)
    ensures |r| <= |cl| && (r == [] <==> cl == [])
  {
    if cl == [] then []
    else
      var m := MergedLines(cl[..|cl| - 1], key);
      var x := cl[|cl| - 1];
      if m == [] || key(x) then m + [x]
      else m[..|m| - 1] + [m[|m| - 1] + " " + x]
  }

  /** The merged lines after one more line. */
  lemma MergedSnoc(cl: seq<string>, t: string, key: string -> bool)
    ensures var m := MergedLines(cl, key); var m' := MergedLines(cl + [t], key);
      && (cl == [] || key(t) ==> m' == m + [t])
      && (cl != [] && !key(t) ==> m' == m[..|m| - 1] + [m[|m| - 1] + " " + t])
  {
    assert (cl + [t])[..|cl|] == cl;
  }

  /** Appending a space and a clean line to a clean line gives a clean line. */
  lemma CleanAppend(a: string, t: string)
    requires CleanLine(a) && CleanLine(t)
    ensures CleanLine(a + " " + t)
  {
    var s := a + " " + t;
    assert s[0] == a[0];
    assert s[|s| - 1] == t[|t| - 1];
  }

  /** Merged clean lines are clean. */
  lemma {:induction false} MergedClean(cl: seq<string>, key: string -> bool)
    requires AllClean(cl)
    ensures AllClean(MergedLines(cl, key))
  {
    if cl != [] {
      var init, t := cl[..|cl| - 1], cl[|cl| - 1];
      assert init + [t] == cl;
      assert AllClean(init) by {
        forall k | 0 <= k < |init| ensures CleanLine(init[k]) { assert init[k] == cl[k]; }
      }
      assert CleanLine(t);
      MergedClean(init, key);
      MergedSnoc(init, t, key);
      var m := MergedLines(init, key);
      var r := MergedLines(cl, key);
      if init == [] || key(t) {
        forall k | 0 <= k < |r| ensures CleanLine(r[k]) {
          if k < |m| { assert r[k] == m[k]; }
        }
      } else {
        CleanAppend(m[|m| - 1], t);
        forall k | 0 <= k < |r| ensures CleanLine(r[k]) {
          if k < |m| - 1 { assert r[k] == m[k]; }
        }
      }
    }
  }

  /** Merging only regroups: the merged lines joined by spaces are the clean lines joined by spaces. */
  lemma {:induction false} MergedLossless(cl: seq<string>, key: string -> bool)
    ensures Join(" ", MergedLines(cl, key)) == Join(" ", cl)
  {
    if cl != [] {
      var init, t := cl[..|cl| - 1], cl[|cl| - 1];
      assert init + [t] == cl;
      MergedLossless(init, key);
      MergedSnoc(init, t, key);
      JoinSnoc(" ", init, t);
      var m := MergedLines(init, key);
      if init == [] || key(t) {
        JoinSnoc(" ", m, t);
      } else {
        JoinExtendLast(m, t);
      }
    }
  }

  /** Extending the last element by a space and `t` extends the join by a space and `t`. */
  lemma JoinExtendLast(m: seq<string>, t: string)
    requires m != []
    ensures Join(" ", m[..|m| - 1] + [m[|m| - 1] + " " + t]) == Join(" ", m) + " " + t
  {
    var pre, last := m[..|m| - 1], m[|m| - 1];
    var longer := last + " " + t;
    assert m == pre + [last];
    JoinSnoc(" ", pre, last);
    JoinSnoc(" ", pre, longer);
    if pre != [] {
      var x := Join(" ", pre) + " ";
      AppendAssoc(x, last + " ", t);
      AppendAssoc(x, last, " ");
    }
  }

  /** A line that holds a keyword still holds it with more text after it. */
  lemma KeywordExtend(a: string, b: string)
    requires IsKeywordLine(a)
    ensures IsKeywordLine(a + b)
  {
    ContainsConcat(a, b, "Media Cost");
    ContainsConcat(a, b, "Platform Fee");
    ContainsConcat(a, b, "Data Fee");
    ContainsConcat(a, b, "Adjustment");
    ContainsConcat(a, b, "Advertiser");
  }

  predicate AllKeywordAfterFirst(m: seq<string>) {
    forall k | 1 <= k < |m| :: IsKeywordLine(m[k])
  }

  /**
   * Every merged line after the first holds a keyword, since a keyword line
   * starts it; so does the first when the first clean line is a keyword line.
   */
  lemma {:induction false} MergedKeywordStarts(cl: seq<string>)
    ensures AllKeywordAfterFirst(MergedLines(cl, IsKeywordLine))
    ensures cl != [] && IsKeywordLine(cl[0]) ==> IsKeywordLine(MergedLines(cl, IsKeywordLine)[0])
  {
    if cl != [] {
      var init, t := cl[..|cl| - 1], cl[|cl| - 1];
      assert init + [t] == cl;
      MergedKeywordStarts(init);
      MergedSnoc(init, t, IsKeywordLine);
      var m := MergedLines(init, IsKeywordLine);
      var r := MergedLines(cl, IsKeywordLine);
      if init == [] {
        assert r == [t];
      } else if IsKeywordLine(t) {
        assert init[0] == cl[0];
        forall k | 1 <= k < |r| ensures IsKeywordLine(r[k]) {
          if k < |m| { assert r[k] == m[k]; }
        }
      } else {
        assert init[0] == cl[0];
        var last := m[|m| - 1];
        if |m| > 1 || IsKeywordLine(cl[0]) {
          KeywordExtend(last, " " + t);
          assert last + " " + t == last + (" " + t);
        }
        forall k | 1 <= k < |r| ensures IsKeywordLine(r[k]) {
          if k < |m| - 1 { assert r[k] == m[k]; }
        }
      }
    }
  }

  /** The indices of the clean lines that start a merged line: the first line, and every later line that passes `key`. */
  function BlockStarts(cl: seq<string>, key: string -> bool): (r: seq<nat>)
    ensures forall k | 0 <= k < |r| :: r[k] < |cl|
  {
    if cl == [] then []
    else
      var s := BlockStarts(cl[..|cl| - 1], key);
      if |cl| == 1 || key(cl[|cl| - 1]) then s + [|cl| - 1] else s
  }

  /** The number of clean lines that pass `key`. */
  function KeyCount(cl: seq<string>, key: string -> bool): nat {
    if cl == [] then 0
    else KeyCount(cl[..|cl| - 1], key) + (if key(cl[|cl| - 1]) then 1 else 0)
  }

  /** Merged line `k` begins with clean line `r[k]`; `r` starts at the first line, and its later lines pass `key`. */
  predicate StartsAgree(cl: seq<string>, m: seq<string>, r: seq<nat>, key: string -> bool) {
    && |m| == |r|
    && (r == [] <==> cl == [])
    && (r != [] ==> r[0] == 0)
    && (forall k | 0 <= k < |r| :: r[k] < |cl|)
    && (forall k | 1 <= k < |r| :: key(cl[r[k]]))
    && (forall k | 0 <= k < |r| :: cl[r[k]] <= m[k])
  }

  /**
   * Merged line `k` begins with clean line `BlockStarts(cl, key)[k]`: the
   * first merged line with the first clean line, and every later one with a
   * line that passes `key`.
   */
  lemma {:induction false} MergedBlockStarts(cl: seq<string>, key: string -> bool)
    ensures StartsAgree(cl, MergedLines(cl, key), BlockStarts(cl, key), key)
  {
    if cl != [] {
      var init, t := cl[..|cl| - 1], cl[|cl| - 1];
      assert init + [t] == cl;
      MergedBlockStarts(init, key);
      MergedSnoc(init, t, key);
      var m, r := MergedLines(init, key), BlockStarts(init, key);
      if init == [] || key(t) {
        assert BlockStarts(cl, key) == r + [|init|];
        StartsPush(init, t, m, r, key);
      } else {
        assert BlockStarts(cl, key) == r;
        StartsJoin(init, t, m, r, key);
      }
    }
  }

  /** A line that starts a new merged line keeps the starts in step. */
  lemma StartsPush(init: seq<string>, t: string, m: seq<string>, r: seq<nat>, key: string -> bool)
    requires StartsAgree(init, m, r, key) && (init == [] || key(t))
    ensures StartsAgree(init + [t], m + [t], r + [|init|], key)
  {
    var cl, m', r' := init + [t], m + [t], r + [|init|];
    forall k | 0 <= k < |r'| ensures r'[k] < |cl| && cl[r'[k]] <= m'[k] {
      if k < |r| { assert r'[k] == r[k] && m'[k] == m[k] && cl[r[k]] == init[r[k]]; }
    }
    forall k | 1 <= k < |r'| ensures key(cl[r'[k]]) {
      if k < |r| { assert r'[k] == r[k] && cl[r[k]] == init[r[k]]; }
    }
  }

  /** A line joined to the last merged line keeps the starts in step. */
  lemma StartsJoin(init: seq<string>, t: string, m: seq<string>, r: seq<nat>, key: string -> bool)
    requires StartsAgree(init, m, r, key) && m != []
    ensures StartsAgree(init + [t], m[..|m| - 1] + [m[|m| - 1] + " " + t], r, key)
  {
    var cl, last := init + [t], m[|m| - 1];
    var m' := m[..|m| - 1] + [last + " " + t];
    PrefixExtend(init[r[|r| - 1]], last, " " + t);
    assert last + " " + t == last + (" " + t);
    forall k | 0 <= k < |r| ensures cl[r[k]] <= m'[k] {
      assert cl[r[k]] == init[r[k]];
      if k < |r| - 1 { assert m'[k] == m[k]; }
    }
    forall k | 1 <= k < |r| ensures key(cl[r[k]]) {
      assert cl[r[k]] == init[r[k]];
    }
  }

  lemma PrefixExtend(a: string, b: string, c: string)
    requires a <= b
    ensures a <= b + c
  {
    assert (b + c)[..|a|] == b[..|a|];
  }

  /**
   * There is one merged line per line that passes `key`, and one more when
   * the first line does not: the lines before the first keyword line form a
   * block of their own.
   */
  lemma {:induction false} BlockCount(cl: seq<string>, key: string -> bool)
    ensures |BlockStarts(cl, key)| == KeyCount(cl, key) + (if cl != [] && !key(cl[0]) then 1 else 0)
  {
    if cl != [] {
      var init := cl[..|cl| - 1];
      BlockCount(init, key);
      if init != [] { assert init[0] == cl[0]; }
    }
  }

  /**
   * The DV360 merge: every merged line after the first begins with a line
   * that holds one of the five keywords, and there are as many merged lines
   * as keyword lines, plus one when lines without a keyword come first.
   */
  lemma MergedKeywordBlocks(cl: seq<string>)
    ensures var m := MergedLines(cl, IsKeywordLine);
      && |m| == KeyCount(cl, IsKeywordLine) + (if cl != [] && !IsKeywordLine(cl[0]) then 1 else 0)
      && (forall k | 1 <= k < |m| :: exists j | 0 < j < |cl| :: IsKeywordLine(cl[j]) && cl[j] <= m[k])
      && (cl != [] ==> cl[0] <= m[0])
  {
    MergedBlockStarts(cl, IsKeywordLine);
    BlockCount(cl, IsKeywordLine);
    var m, r := MergedLines(cl, IsKeywordLine), BlockStarts(cl, IsKeywordLine);
    assert StartsAgree(cl, m, r, IsKeywordLine);
    forall k | 1 <= k < |m| ensures exists j | 0 < j < |cl| :: IsKeywordLine(cl[j]) && cl[j] <= m[k] {
      BlockStartsIncrease(cl, IsKeywordLine, k);
      var j := r[k];
      assert IsKeywordLine(cl[j]) && cl[j] <= m[k];
    }
  }

  /** The starts after the first are later lines. */
  lemma {:induction false} BlockStartsIncrease(cl: seq<string>, key: string -> bool, k: nat)
    requires 1 <= k < |BlockStarts(cl, key)|
    ensures 0 < BlockStarts(cl, key)[k]
  {
    var init := cl[..|cl| - 1];
    var r := BlockStarts(init, key);
    if k < |r| {
      BlockStartsIncrease(init, key, k);
      assert BlockStarts(cl, key)[k] == r[k];
    }
  }

  /** What the buffer holds before the last merged line: a space when the first line is not a keyword line and no keyword line has come since. */
  function Lead(cl: seq<string>, m: seq<string>, key: string -> bool): string
    requires cl != []
  {
    if |m| == 1 && !key(cl[0]) then " " else ""
  }

  /**
   * The loop's state after the clean lines `cl`: every merged line but the
   * last is pushed, and the buffer holds the last one.
   */
  predicate MergeInv(cl: seq<string>, merged: seq<string>, buffer: string, key: string -> bool) {
    var m := MergedLines(cl, key);
    && (cl == [] ==> buffer == [] && merged == [])
    && (cl != [] ==> merged == m[..|m| - 1] && buffer == Lead(cl, m, key) + m[|m| - 1])
  }

  /** Stripping the buffer gives the last merged line. */
  lemma StripBuffer(cl: seq<string>, key: string -> bool)
    requires cl != [] && AllClean(cl)
    ensures var m := MergedLines(cl, key);
      m[|m| - 1] != [] && Strip(Lead(cl, m, key) + m[|m| - 1]) == m[|m| - 1]
  {
    var m := MergedLines(cl, key);
    MergedClean(cl, key);
    var j := m[|m| - 1];
    assert CleanLine(j);
    if Lead(cl, m, key) == "" {
      assert Lead(cl, m, key) + j == j;
      StripNoop(j);
    } else {
      StripLeadingSpace(j);
    }
  }

  /** Closing the buffer pushes the last merged line. */
  lemma MergeFlush(cl: seq<string>, merged: seq<string>, buffer: string, key: string -> bool)
    requires AllClean(cl) && MergeInv(cl, merged, buffer, key)
    ensures buffer == [] <==> cl == []
    ensures (if buffer != [] then merged + [Strip(buffer)] else merged) == MergedLines(cl, key)
  {
    var m := MergedLines(cl, key);
    if cl != [] {
      StripBuffer(cl, key);
      var j := m[|m| - 1];
      assert buffer == Lead(cl, m, key) + j;
      assert |buffer| >= |j| > 0;
      assert Strip(buffer) == j;
      assert m == m[..|m| - 1] + [j];
    }
  }

  /** A keyword line closes the buffer and starts a new one. */
  lemma MergeKeyword(cl: seq<string>, t: string, cl': seq<string>, merged: seq<string>, buffer: string, merged': seq<string>, key: string -> bool)
    requires AllClean(cl) && cl' == cl + [t] && key(t) && MergeInv(cl, merged, buffer, key)
    requires merged' == if buffer != [] then merged + [Strip(buffer)] else merged
    ensures MergeInv(cl', merged', t, key)
  {
    MergeFlush(cl, merged, buffer, key);
    MergedSnoc(cl, t, key);
    var m' := MergedLines(cl', key);
    assert m' == MergedLines(cl, key) + [t];
    assert m'[..|m'| - 1] == MergedLines(cl, key);
    assert cl'[0] == if cl == [] then t else cl[0];
    assert Lead(cl', m', key) == "";
  }

  /** Any other line joins the buffer. */
  lemma MergeJoin(cl: seq<string>, t: string, cl': seq<string>, merged: seq<string>, buffer: string, buffer': string, key: string -> bool)
    requires cl' == cl + [t] && !key(t) && MergeInv(cl, merged, buffer, key)
    requires buffer' == buffer + " " + t
    ensures MergeInv(cl', merged, buffer', key)
  {
    MergedSnoc(cl, t, key);
    var m := MergedLines(cl, key);
    var m' := MergedLines(cl', key);
    if cl == [] {
      assert cl' == [t] && m' == [t];
      assert m'[..0] == [];
      assert buffer' == " " + t;
    } else {
      assert m' == m[..|m| - 1] + [m[|m| - 1] + " " + t];
      assert m'[..|m'| - 1] == m[..|m| - 1];
      assert cl'[0] == cl[0];
      assert Lead(cl', m', key) == Lead(cl, m, key);
    }
  }

  /** One turn of the merge loop keeps its state what the merged lines say it is. */
  lemma MergeStep(cl: seq<string>, i: nat, merged0: seq<string>, buffer0: string, merged: seq<string>, buffer: string, key: string -> bool)
    requires AllClean(cl) && i < |cl| && MergeInv(cl[..i], merged0, buffer0, key)
    requires key(cl[i]) ==> merged == (if buffer0 != [] then merged0 + [Strip(buffer0)] else merged0) && buffer == cl[i]
    requires !key(cl[i]) ==> merged == merged0 && buffer == buffer0 + " " + cl[i]
    ensures MergeInv(cl[..i + 1], merged, buffer, key)
  {
    assert cl[..i + 1] == cl[..i] + [cl[i]];
    AllCleanPrefix(cl, i);
    if key(cl[i]) {
      MergeKeyword(cl[..i], cl[i], cl[..i + 1], merged0, buffer0, merged, key);
    } else {
      MergeJoin(cl[..i], cl[i], cl[..i + 1], merged0, buffer0, buffer, key);
    }
  }

  /**
   * The merge pass over the stripped, non-blank lines of the detail text,
   * with `key` the test for a line that starts a block (`IsKeywordLine` in
   * the extractor).
   */
  method Merge(cl: seq<string>, key: string -> bool) returns (merged: seq<string>)
    requires AllClean(cl)
    ensures merged == MergedLines(cl, key)
  {
    merged := [];
    var buffer := "";
    var i := 0;
    assert cl[..0] == [];
    while i < |cl|
      invariant 0 <= i <= |cl|
      invariant MergeInv(cl[..i], merged, buffer, key)
    {
      var line := cl[i];
      ghost var merged0, buffer0 := merged, buffer;
      if key(line) {
        if buffer != [] {
          merged := merged + [Strip(buffer)];
        }
        buffer := line;
      } else {
        buffer := buffer + " " + line;
      }
      MergeStep(cl, i, merged0, buffer0, merged, buffer, key);
      ghost var next := cl[..i + 1];
      assert MergeInv(next, merged, buffer, key);
      i := i + 1;
      assert cl[..i] == next;
    }
    assert cl[..i] == cl;
    MergeFlush(cl, merged, buffer, key);
    if buffer != [] {
      merged := merged + [Strip(buffer)];
    }
  }

  // ---------------------------------------------------------------------------
  // Detail rows
  // ---------------------------------------------------------------------------

  /** The row function of the detail loop. */
  function ItemRows(h: Header): string -> Option<DetailRow> {
    (line: string) => ItemRow(line, h)
  }

  /** The detail rows of the merged lines, in order; a line the pattern misses or whose figures fail is skipped. */
  function DetailRows(blocks: seq<string>, h: Header): (r: seq<DetailRow>)
    ensures |r| <= |blocks|
  {
    Collect(blocks, ItemRows(h))
  }

  /** Every detail row is the row of one of the merged lines, and carries the header's invoice number and month. */
  lemma DetailRowsShape(blocks: seq<string>, h: Header, k: nat)
    requires k < |DetailRows(blocks, h)|
    ensures exists j | 0 <= j < |blocks| :: ItemRow(blocks[j], h) == Some(DetailRows(blocks, h)[k])
    ensures var row := DetailRows(blocks, h)[k];
      row.invoiceType == InvoiceType && row.invoiceNum == h.invoiceNum && row.month == h.month
  {
    CollectFrom(blocks, ItemRows(h), k);
  }

  /** A single line gives its row, if any. */
  lemma DetailRowsSingle(b: string, h: Header)
    ensures DetailRows([b], h) == if ItemRow(b, h).Some? then [ItemRow(b, h).value] else []
  {
    CollectSnoc([], b, ItemRows(h));
    assert [] + [b] == [b];
  }

  /** Rows keep the order of the lines they come from. */
  lemma DetailRowsAppend(a: seq<string>, b: seq<string>, h: Header)
    ensures DetailRows(a + b, h) == DetailRows(a, h) + DetailRows(b, h)
  {
    CollectAppend(a, b, ItemRows(h));
  }

  /** The row loop over the merged lines. */
  method Details(blocks: seq<string>, h: Header) returns (rows: seq<DetailRow>)
    ensures rows == DetailRows(blocks, h)
  {
    rows := [];
    var i := 0;
    while i < |blocks|
      invariant 0 <= i <= |blocks|
      invariant rows == DetailRows(blocks[..i], h)
    {
      CollectStep(blocks, i, ItemRows(h));
      var row := ItemRow(blocks[i], h);
      if row.Some? {
        rows := rows + [row.value];
      }
      i := i + 1;
    }
    assert blocks[..i] == blocks;
  }

  /**
   * The DV360 extractor: one summary row from the summary page, and the
   * detail rows of the merged detail lines.
   */
  method Extract(summaryText: string, detailText: string) returns (summary: seq<SummaryRow>, details: seq<DetailRow>)
    ensures var h := HeaderOf(summaryText);
      summary == [SummaryRow(InvoiceType, h.invoiceNum, h.month, h.total)]
    ensures details == DetailRows(MergedLines(CleanLines(SplitLines(detailText)), IsKeywordLine), HeaderOf(summaryText))
  {
    var h := HeaderOf(summaryText);
    summary := [SummaryRow(InvoiceType, h.invoiceNum, h.month, h.total)];
    var cl := CleanLines(SplitLines(detailText));
    assert AllClean(cl);
    var merged := Merge(cl, IsKeywordLine);
    details := Details(merged, h);
  }
}
