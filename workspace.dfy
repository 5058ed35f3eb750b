/**
 * The Google Workspace extractor: a summary row read from the page keyed
 * `page_1` (billing period, invoice number and subtotal, each with its
 * fallback), then a detail row for each usage line of the other pages.
 */
module Workspace {
  import opened Options
  import opened Text
  import opened Scan
  import opened Patterns
  import opened Parser

  const InvoiceType := "Google Workspace"

  // ---------------------------------------------------------------------------
  // Summary page and detail pages
  // ---------------------------------------------------------------------------

  /** `text_dict.get(key, {}).get("text", "")`, looking from page `i` on. */
  function PageTextFrom(pages: Pages, key: string, i: nat): (r: string)
    ensures r == "" || exists k | i <= k < |pages| :: PageKey(k) == key && pages[k] == r
    decreases |pages| - i
  {
    if i >= |pages| then ""
    else if PageKey(i) == key then pages[i]
    else PageTextFrom(pages, key, i + 1)
  }

  /** The pages, in order, whose key is not `key`. */
  function PagesOtherThan(pages: Pages, key: string): (r: seq<string>)
    ensures |r| <= |pages|
  {
    if pages == [] then []
    else
      var rest := PagesOtherThan(pages[..|pages| - 1], key);
      if PageKey(|pages| - 1) == key then rest else rest + [pages[|pages| - 1]]
  }

  /** The summary text: the page keyed `page_1`. */
  function SummaryText(pages: Pages): string {
    PageTextFrom(pages, "page_1", 0)
  }

  /** The detail text: every other page, in order, joined by newlines. */
  function DetailText(pages: Pages): string {
    Join("\n", PagesOtherThan(pages, "page_1"))
  }

  /** The summary text is the first page, or empty for a document without pages. */
  lemma SummaryIsFirstPage(pages: Pages)
    ensures SummaryText(pages) == if pages == [] then "" else pages[0]
  {
    PageKeyFirst(0);
  }

  /** The detail pages are all pages but the first, in order. */
  lemma {:induction false} DetailPagesAreTheRest(pages: Pages)
    ensures PagesOtherThan(pages, "page_1") == if pages == [] then [] else pages[1..]
  {
    if pages != [] {
      var init := pages[..|pages| - 1];
      DetailPagesAreTheRest(init);
      PageKeyFirst(|pages| - 1);
      if |pages| > 1 {
        assert pages[1..] == init[1..] + [pages[|pages| - 1]];
      }
    }
  }

  // ---------------------------------------------------------------------------
  // Summary fields
  // ---------------------------------------------------------------------------

  /**
   * `Summary for (.+?\d{4})` at `p`: where the group ends. The lazy part
   * takes at least one character and stops at the first year after it.
   */
  function PeriodAt(s: string, p: nat): (r: Option<nat>)
    ensures r.Some? ==> LitAt(s, p, "Summary for ") && p + 17 <= r.value <= |s|
    ensures r.Some? ==> AllIn(s, p + 12, r.value - 4, NotNewline) && Year4At(s, r.value - 4)
    ensures r.Some? ==> forall e | p + 13 <= e < r.value - 4 :: !Year4At(s, e)
    ensures r.None? && LitAt(s, p, "Summary for ") ==> forall e | p + 13 <= e <= LazyEndMax(s, p + 12, false) :: !Year4At(s, e)
  {
    if !LitAt(s, p, "Summary for ") then None
    else
      var at: nat -> Option<nat> := (e: nat) => if Year4At(s, e) then Some(e + 4) else None;
      var f := First(p + 13, LazyEndMax(s, p + 12, false), at);
      assert forall e :: at(e).None? <==> !Year4At(s, e);
      match f
      case None => None
      case Some((e, end)) => Some(end)
  }

  /** `Invoice number: (\d+)` at `p`: where the digits end. */
  function NumberAt(s: string, p: nat): (r: Option<nat>)
    ensures r.Some? ==> LitAt(s, p, "Invoice number: ") && p + 16 < r.value <= |s| && AllIn(s, p + 16, r.value, IsDigit)
    ensures r.Some? ==> r.value == |s| || !IsDigit(s[r.value])
    ensures r.None? ==> !LitAt(s, p, "Invoice number: ") || p + 16 == |s| || !IsDigit(s[p + 16])
  {
    if !LitAt(s, p, "Invoice number: ") then None else RunAt(s, p + 16, IsDigit)
  }

  /** `Subtotal in USD \$([\d,.]+)` at `p`: where the amount ends. */
  function SubtotalAt(s: string, p: nat): (r: Option<nat>)
    ensures r.Some? ==> LitAt(s, p, "Subtotal in USD $") && p + 17 < r.value <= |s| && AllIn(s, p + 17, r.value, DigitCommaOrDot)
    ensures r.Some? ==> r.value == |s| || !DigitCommaOrDot(s[r.value])
    ensures r.None? ==> !LitAt(s, p, "Subtotal in USD $") || p + 17 == |s| || !DigitCommaOrDot(s[p + 17])
  {
    if !LitAt(s, p, "Subtotal in USD $") then None else RunAt(s, p + 17, DigitCommaOrDot)
  }

  /** `re.search` of the billing-period pattern: the leftmost start and the group's end. */
  function FindPeriod(s: string): (r: Option<(nat, nat)>)
    ensures r.Some? ==> PeriodAt(s, r.value.0) == Some(r.value.1)
  {
    var at: nat -> Option<nat> := (p: nat) => PeriodAt(s, p);
    assert forall p :: at(p) == PeriodAt(s, p);
    Search(s, at)
  }

  /** `FindPeriod` takes the leftmost start at which the billing-period pattern matches, and fails only when none does. */
  lemma FindPeriodLeftmost(s: string)
    ensures FindPeriod(s).Some? ==> forall p: nat | p < FindPeriod(s).value.0 :: PeriodAt(s, p).None?
    ensures FindPeriod(s).None? ==> forall p: nat | p <= |s| :: PeriodAt(s, p).None?
  {
    var at: nat -> Option<nat> := (p: nat) => PeriodAt(s, p);
    assert forall p :: at(p) == PeriodAt(s, p);
  }

  /** `re.search` of the invoice-number pattern. */
  function FindNumber(s: string): (r: Option<(nat, nat)>)
    ensures r.Some? ==> NumberAt(s, r.value.0) == Some(r.value.1)
  {
    var at: nat -> Option<nat> := (p: nat) => NumberAt(s, p);
    assert forall p :: at(p) == NumberAt(s, p);
    Search(s, at)
  }

  /** `FindNumber` takes the leftmost start at which the invoice-number pattern matches, and fails only when none does. */
  lemma FindNumberLeftmost(s: string)
    ensures FindNumber(s).Some? ==> forall p: nat | p < FindNumber(s).value.0 :: NumberAt(s, p).None?
    ensures FindNumber(s).None? ==> forall p: nat | p <= |s| :: NumberAt(s, p).None?
  {
    var at: nat -> Option<nat> := (p: nat) => NumberAt(s, p);
    assert forall p :: at(p) == NumberAt(s, p);
  }

  /** `re.search` of the subtotal pattern. */
  function FindSubtotal(s: string): (r: Option<(nat, nat)>)
    ensures r.Some? ==> SubtotalAt(s, r.value.0) == Some(r.value.1)
  {
    var at: nat -> Option<nat> := (p: nat) => SubtotalAt(s, p);
    assert forall p :: at(p) == SubtotalAt(s, p);
    Search(s, at)
  }

  /** `FindSubtotal` takes the leftmost start at which the subtotal pattern matches, and fails only when none does. */
  lemma FindSubtotalLeftmost(s: string)
    ensures FindSubtotal(s).Some? ==> forall p: nat | p < FindSubtotal(s).value.0 :: SubtotalAt(s, p).None?
    ensures FindSubtotal(s).None? ==> forall p: nat | p <= |s| :: SubtotalAt(s, p).None?
  {
    var at: nat -> Option<nat> := (p: nat) => SubtotalAt(s, p);
    assert forall p :: at(p) == SubtotalAt(s, p);
  }

  /** The summary row's fields. */
  datatype Summary = Summary(invoiceNum: string, month: string, subtotal: string)

  /** `month_match.group(1) if month_match else invoice_month or "N/A"`. */
  function MonthField(s: string, invoiceMonth: string): (r: string)
    ensures r != ""
    ensures FindPeriod(s).None? ==> r == OrElse(Some(invoiceMonth), "N/A")
    ensures FindPeriod(s).Some? ==> 5 <= |r| && Year4At(r, |r| - 4)
  {
    match FindPeriod(s)
    case Some((p, end)) => PeriodGroup(s, p, end)
    case None => OrElse(Some(invoiceMonth), "N/A")
  }

  /** The period group of a match at `p`: at least one character, then the year that ends it. */
  function PeriodGroup(s: string, p: nat, end: nat): (r: string)
    requires PeriodAt(s, p) == Some(end)
    ensures 5 <= |r| && Year4At(r, |r| - 4)
  {
    Year4AtSlice(s, p + 12, end);
    s[p + 12..end]
  }

  /** `invoice_match.group(1) if invoice_match else invoice_num or "N/A"`. */
  function NumberField(s: string, invoiceNum: string): (r: string)
    ensures r != ""
    ensures FindNumber(s).None? ==> r == OrElse(Some(invoiceNum), "N/A")
    ensures FindNumber(s).Some? ==> AllIn(r, 0, |r|, IsDigit)
  {
    match FindNumber(s)
    case Some((p, end)) =>
      SliceAllIn(s, p + 16, end, IsDigit);
      s[p + 16..end]
    case None => OrElse(Some(invoiceNum), "N/A")
  }

  /** `subtotal_match.group(1) if subtotal_match else "N/A"`: the amount as printed, commas kept. */
  function SubtotalField(s: string): (r: string)
    ensures r != ""
    ensures FindSubtotal(s).None? ==> r == "N/A"
    ensures FindSubtotal(s).Some? ==> AllIn(r, 0, |r|, DigitCommaOrDot)
  {
    match FindSubtotal(s)
    case Some((p, end)) =>
      SliceAllIn(s, p + 17, end, DigitCommaOrDot);
      s[p + 17..end]
    case None => "N/A"
  }

  /** The three summary fields, read from the summary text. */
  function SummaryOf(s: string, invoiceNum: string, invoiceMonth: string): Summary {
    Summary(NumberField(s, invoiceNum), MonthField(s, invoiceMonth), SubtotalField(s))
  }

  // ---------------------------------------------------------------------------
  // The usage line (Google Workspace Enterprise Standard Usage .+?)\s+(\d+)\s+([\d,]+\.\d{2})$
  // ---------------------------------------------------------------------------

  const UsagePrefix := "Google Workspace Enterprise Standard Usage "

  /** The quantity digits and the amount, which runs to the end of the line. */
  datatype UsagePos = UsagePos(desc: nat, qty: Group, amount: Group)

  /** Any way `\s+(\d+)\s+([\d,]+\.\d{2})$` can match from `e` to the end of `s`. */
  predicate UsageTailParse(s: string, m: UsagePos) {
    && m.desc < m.qty.lo && AllIn(s, m.desc, m.qty.lo, IsSpace)
    && m.qty.lo < m.qty.hi && AllIn(s, m.qty.lo, m.qty.hi, IsDigit)
    && m.qty.hi < m.amount.lo && AllIn(s, m.qty.hi, m.amount.lo, IsSpace)
    && m.amount.hi == |s| && m.amount.lo + 3 <= m.amount.hi && AmountParse(s, m.amount.lo, m.amount.hi - 3)
  }

  /** The match from `e`; every run in it is forced, so there is at most one. */
  function UsageTailAt(s: string, e: nat): (r: Option<UsagePos>)
    ensures r.Some? ==> r.value.desc == e && UsageTailParse(s, r.value)
  {
    match RunAt(s, e, IsSpace)
    case None => None
    case Some(q0) =>
      match RunAt(s, q0, IsDigit)
      case None => None
      case Some(q1) =>
        match RunAt(s, q1, IsSpace)
        case None => None
        case Some(a0) =>
          match AmountAt(s, a0)
          case None => None
          case Some(j) => if j + 3 == |s| then Some(UsagePos(e, Group(q0, q1), Group(a0, |s|))) else None
  }

  /** Every match of the tail is the one `UsageTailAt` finds. */
  lemma UsageTailAtComplete(s: string, m: UsagePos)
    requires UsageTailParse(s, m)
    ensures UsageTailAt(s, m.desc) == Some(m)
  {
    RunAtComplete(s, m.desc, m.qty.lo, IsSpace);
    RunAtComplete(s, m.qty.lo, m.qty.hi, IsDigit);
    RunAtComplete(s, m.qty.hi, m.amount.lo, IsSpace);
    AmountAtComplete(s, m.amount.lo, m.amount.hi - 3);
  }

  /**
   * The whole pattern, anchored at the start of the line: the prefix, then
   * the lazy rest of the description, which takes the first end, one
   * character or more past the prefix, that lets the tail match.
   */
  function UsageOf(line: string): (r: Option<UsagePos>)
    ensures r.Some? ==> LitAt(line, 0, UsagePrefix) && |UsagePrefix| < r.value.desc
    ensures r.Some? ==> AllIn(line, |UsagePrefix|, r.value.desc, NotNewline) && UsageTailParse(line, r.value)
  {
    if !LitAt(line, 0, UsagePrefix) then None
    else
      var g := |UsagePrefix|;
      var at: nat -> Option<UsagePos> := (e: nat) => UsageTailAt(line, e);
      var f := First(g + 1, LazyEndMax(line, g, false), at);
      assert forall e :: at(e) == UsageTailAt(line, e);
      match f
      case None => None
      case Some((e, m)) => Some(m)
  }

  /** The description is as short as the lazy `.+?` makes it: no earlier end lets the tail match. */
  lemma UsageOfLazy(line: string)
    ensures UsageOf(line).Some? ==> forall e | |UsagePrefix| < e < UsageOf(line).value.desc :: UsageTailAt(line, e).None?
    ensures UsageOf(line).None? && LitAt(line, 0, UsagePrefix) ==>
      forall e | |UsagePrefix| < e <= LazyEndMax(line, |UsagePrefix|, false) :: UsageTailAt(line, e).None?
  {
    if LitAt(line, 0, UsagePrefix) {
      var g := |UsagePrefix|;
      var at: nat -> Option<UsagePos> := (e: nat) => UsageTailAt(line, e);
      assert forall e :: at(e) == UsageTailAt(line, e);
      var f := First(g + 1, LazyEndMax(line, g, false), at);
      assert UsageOf(line) == if f.Some? then Some(f.value.1) else None;
    }
  }

  /** Any match of the usage pattern makes `UsageOf` find one, its description no longer. */
  lemma UsageOfComplete(line: string, m: UsagePos)
    requires LitAt(line, 0, UsagePrefix) && |UsagePrefix| < m.desc
    requires AllIn(line, |UsagePrefix|, m.desc, NotNewline) && UsageTailParse(line, m)
    ensures UsageOf(line).Some? && UsageOf(line).value.desc <= m.desc
  {
    UsageTailAtComplete(line, m);
    RunWithin(line, |UsagePrefix|, m.desc, NotNewline);
    UsageOfLazy(line);
  }

  // ---------------------------------------------------------------------------
  // Rows
  // ---------------------------------------------------------------------------

  /**
   * One row. The summary row has no description, quantity or unit (the
   * data frame's missing values); every field the source captures is kept
   * as the text it matched.
   */
  datatype WsRow = WsRow(
    invoiceType: string, invoiceNum: string, month: string, amount: string, filename: string, rowType: string,
    description: Option<string>, quantity: Option<string>, uom: Option<string>)

  /** The summary row. */
  function SummaryRow(h: Summary, name: string): (r: WsRow)
    ensures r.rowType == "summary" && r.invoiceType == InvoiceType && r.filename == name
    ensures r.invoiceNum == h.invoiceNum && r.month == h.month && r.amount == h.subtotal
    ensures r.description.None? && r.quantity.None? && r.uom.None?
  {
    WsRow(InvoiceType, h.invoiceNum, h.month, h.subtotal, name, "summary", None, None, None)
  }

  /** The row of a usage line, if the line is one. */
  function UsageRow(line: string, h: Summary, name: string): (r: Option<WsRow>)
    ensures r.Some? <==> UsageOf(line).Some?
    ensures r.Some? ==>
      && r.value.rowType == "detail" && r.value.invoiceType == InvoiceType && r.value.filename == name
      && r.value.invoiceNum == h.invoiceNum && r.value.month == h.month && r.value.uom == Some("users")
  {
    match UsageOf(line)
    case None => None
    case Some(m) =>
      Some(WsRow(InvoiceType, h.invoiceNum, h.month, Slice(line, m.amount), name, "detail",
        Some(line[..m.desc]), Some(Slice(line, m.qty)), Some("users")))
  }

  /** A usage row's description is the line up to its quantity, and starts with the product prefix. */
  lemma UsageRowDescription(line: string, h: Summary, name: string)
    requires UsageOf(line).Some?
    ensures var d := UsageRow(line, h, name).value.description;
      d.Some? && |UsagePrefix| < |d.value| && d.value[..|UsagePrefix|] == UsagePrefix
  {
    var m := UsageOf(line).value;
    assert line[..m.desc][..|UsagePrefix|] == line[..|UsagePrefix|];
  }

  /** A usage row's quantity is a non-empty run of digits. */
  lemma UsageRowQuantity(line: string, h: Summary, name: string)
    requires UsageOf(line).Some?
    ensures var q := UsageRow(line, h, name).value.quantity;
      q.Some? && q.value != [] && AllIn(q.value, 0, |q.value|, IsDigit)
  {
    var m := UsageOf(line).value;
    SliceAllIn(line, m.qty.lo, m.qty.hi, IsDigit);
  }

  /** `a` ends `line`, and is digits with two decimals once its commas are removed. */
  predicate AmountEndsLine(line: string, a: string) {
    TwoDecimals(RemoveCommas(a)) && |a| <= |line| && line[|line| - |a|..] == a
  }

  /** A usage row's amount ends the line and has two decimals once its commas are removed. */
  lemma UsageRowAmount(line: string, h: Summary, name: string)
    requires UsageOf(line).Some?
    ensures AmountEndsLine(line, UsageRow(line, h, name).value.amount)
  {
    UsageAmount(line);
    assert UsageRow(line, h, name).value.amount == Slice(line, UsageOf(line).value.amount);
  }

  /** The amount group of a usage line is a two-decimal amount that ends it. */
  lemma UsageAmount(line: string)
    requires UsageOf(line).Some?
    ensures AmountEndsLine(line, Slice(line, UsageOf(line).value.amount))
  {
    var m := UsageOf(line).value;
    assert UsageTailParse(line, m);
    TailAmount(line, m);
  }

  /** An amount group that runs to the end of the line is a two-decimal amount that ends it. */
  lemma TailAmount(line: string, m: UsagePos)
    requires UsageTailParse(line, m)
    ensures AmountEndsLine(line, Slice(line, m.amount))
  {
    AmountShape(line, m.amount.lo, m.amount.hi - 3);
  }

  /** The row function of the detail loop. */
  function UsageRows(h: Summary, name: string): string -> Option<WsRow> {
    (line: string) => UsageRow(line, h, name)
  }

  /** The detail rows of the detail lines, in order: one per usage line. */
  function DetailRows(lines: seq<string>, h: Summary, name: string): (r: seq<WsRow>)
    ensures |r| <= |lines|
  {
    Collect(lines, UsageRows(h, name))
  }

  /** Every detail row is the row of one of the lines, so is a detail row of this invoice. */
  lemma DetailRowsShape(lines: seq<string>, h: Summary, name: string, k: nat)
    requires k < |DetailRows(lines, h, name)|
    ensures exists j | 0 <= j < |lines| :: UsageRow(lines[j], h, name) == Some(DetailRows(lines, h, name)[k])
    ensures var row := DetailRows(lines, h, name)[k];
      row.rowType == "detail" && row.invoiceType == InvoiceType && row.filename == name
      && row.invoiceNum == h.invoiceNum && row.month == h.month && row.uom == Some("users")
  {
    CollectFrom(lines, UsageRows(h, name), k);
  }

  /** Rows keep the order of the lines they come from. */
  lemma DetailRowsAppend(a: seq<string>, b: seq<string>, h: Summary, name: string)
    ensures DetailRows(a + b, h, name) == DetailRows(a, h, name) + DetailRows(b, h, name)
  {
    CollectAppend(a, b, UsageRows(h, name));
  }

  /** `extract_google_workspace`: the summary row, then the detail rows, every row naming the file by its base name. */
  function Table(pages: Pages, invoiceNum: string, filename: string, invoiceMonth: string): seq<WsRow> {
    var h := SummaryOf(SummaryText(pages), invoiceNum, invoiceMonth);
    var name := BaseName(filename);
    [SummaryRow(h, name)] + DetailRows(SplitLines(DetailText(pages)), h, name)
  }

  /** The row loop, appending to a list that already holds the summary row. */
  method AppendDetails(lines: seq<string>, h: Summary, name: string, first: WsRow) returns (rows: seq<WsRow>)
    ensures rows == [first] + DetailRows(lines, h, name)
  {
    var usage := UsageRows(h, name);
    rows := [first];
    var i := 0;
    while i < |lines|
      invariant 0 <= i <= |lines|
      invariant rows == [first] + Collect(lines[..i], usage)
    {
      CollectPush([first], rows, lines, i, usage);
      var row := usage(lines[i]);
      if row.Some? {
        rows := rows + [row.value];
      }
      i := i + 1;
    }
    assert lines[..i] == lines;
  }

  /** The extractor: `DataFrame(rows) if rows else None`, where `rows` always starts with the summary row. */
  method Extract(pages: Pages, invoiceNum: string, filename: string, invoiceMonth: string) returns (r: Option<seq<WsRow>>)
    ensures r == Some(Table(pages, invoiceNum, filename, invoiceMonth))
  {
    var h := SummaryOf(SummaryText(pages), invoiceNum, invoiceMonth);
    var name := BaseName(filename);
    var rows := AppendDetails(SplitLines(DetailText(pages)), h, name, SummaryRow(h, name));
    r := if rows != [] then Some(rows) else None;
  }
}
