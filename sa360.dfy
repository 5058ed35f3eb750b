/**
 * The Search Ads 360 extractor (`extract_sa360`): the page text is split into
 * lines, stripped, and buffered until the buffered block reads like one
 * advertiser's charge (a quantity, price and amount triple and the word
 * `Advertiser:`); each such block becomes a detail row, and a summary row
 * carrying the printed total closes the table.
 */
module Sa360 {
  import opened Options
  import opened Text
  import opened Scan
  import opened Patterns
  import opened Parser

  // ---------------------------------------------------------------------------
  // ([\d,]+)\s+([\d.]+)\s+([\d,]+\.\d{2})
  // ---------------------------------------------------------------------------

  /** Quantity `s[qty.lo..qty.hi]`, unit price `s[price.lo..price.hi]`, amount from `amount` with its point at `point`. */
  datatype FinancialPos = FinancialPos(qty: Group, price: Group, amount: nat, point: nat)

  /** Any way the financial pattern can match at `i`. */
  predicate FinancialParse(s: string, i: nat, m: FinancialPos) {
    && m.qty.lo == i < m.qty.hi && AllIn(s, i, m.qty.hi, DigitOrComma)
    && m.qty.hi < m.price.lo && AllIn(s, m.qty.hi, m.price.lo, IsSpace)
    && m.price.lo < m.price.hi && AllIn(s, m.price.lo, m.price.hi, DigitOrDot)
    && m.price.hi < m.amount && AllIn(s, m.price.hi, m.amount, IsSpace)
    && AmountParse(s, m.amount, m.point)
  }

  /**
   * The match at `i`. Each greedy run is followed by a character it cannot
   * take, so no run gives anything back and the match is the one the runs make.
   */
  function FinancialAt(s: string, i: nat): (r: Option<FinancialPos>)
    ensures r.Some? ==> r.value.qty.lo == i < r.value.qty.hi < r.value.price.lo < r.value.price.hi < r.value.amount
    ensures r.Some? ==> r.value.amount < r.value.point && r.value.point + 3 <= |s|
  {
    if i > |s| then None
    else
      var q := Span(s, i, DigitOrComma);
      var u := Span(s, q, IsSpace);
      var h := Span(s, u, DigitOrDot);
      var a := Span(s, h, IsSpace);
      if i < q < u < h < a then
        match AmountAt(s, a)
        case Some(pt) => Some(FinancialPos(Group(i, q), Group(u, h), a, pt))
        case None => None
      else None
  }

  lemma FinancialAtSound(s: string, i: nat)
    requires FinancialAt(s, i).Some?
    ensures FinancialParse(s, i, FinancialAt(s, i).value)
  {
    var m := FinancialAt(s, i).value;
    SpanRun(s, i, DigitOrComma);
    SpanRun(s, m.qty.hi, IsSpace);
    SpanRun(s, m.price.lo, DigitOrDot);
    SpanRun(s, m.price.hi, IsSpace);
  }

  /** The financial pattern has one parse at a position, the one `FinancialAt` finds. */
  lemma FinancialAtComplete(s: string, m: FinancialPos)
    requires FinancialParse(s, m.qty.lo, m)
    ensures FinancialAt(s, m.qty.lo) == Some(m)
  {
    assert IsSpace(s[m.qty.hi]) && DigitOrDot(s[m.price.lo]);
    assert IsSpace(s[m.price.hi]) && DigitOrComma(s[m.amount]);
    RunStops(s, m.qty.lo, m.qty.hi, DigitOrComma);
    RunStops(s, m.qty.hi, m.price.lo, IsSpace);
    RunStops(s, m.price.lo, m.price.hi, DigitOrDot);
    RunStops(s, m.price.hi, m.amount, IsSpace);
    AmountAtComplete(s, m.amount, m.point);
  }

  /** `financial_pattern.search(block)`. */
  function FindFinancial(s: string): Option<(nat, FinancialPos)> {
    var at: nat -> Option<FinancialPos> := (p: nat) => FinancialAt(s, p);
    Search(s, at)
  }

  /** The search finds a match exactly when some position parses. */
  lemma FindFinancialIff(s: string)
    ensures FindFinancial(s).Some? <==> exists m: FinancialPos :: m.qty.lo <= |s| && FinancialParse(s, m.qty.lo, m)
  {
    var at: nat -> Option<FinancialPos> := (p: nat) => FinancialAt(s, p);
    if FindFinancial(s).Some? {
      var p := FindFinancial(s).value.0;
      FinancialAtSound(s, p);
    }
    if exists m: FinancialPos :: m.qty.lo <= |s| && FinancialParse(s, m.qty.lo, m) {
      var m: FinancialPos :| m.qty.lo <= |s| && FinancialParse(s, m.qty.lo, m);
      FinancialAtComplete(s, m);
      assert at(m.qty.lo).Some?;
    }
  }

  // ---------------------------------------------------------------------------
  // Advertiser:\s*(.+?)\s+ID[:\s]+(\d+)
  // ---------------------------------------------------------------------------

  /** `\s+ID[:\s]+(\d+)` matches at `e` with `ID` at `w` and the digits at `id`. */
  predicate IdTailGap(s: string, e: nat, w: nat, id: Group) {
    && e < w && AllIn(s, e, w, IsSpace) && LitAt(s, w, "ID")
    && w + 2 < id.lo && AllIn(s, w + 2, id.lo, ColonOrSpace)
    && id.lo < id.hi && AllIn(s, id.lo, id.hi, IsDigit)
  }

  /** `\s+ID[:\s]+(\d+)` matches at `e`, with the digits at `id`. */
  ghost predicate IdTailParse(s: string, e: nat, id: Group) {
    exists w: nat :: IdTailGap(s, e, w, id)
  }

  /** The match of `\s+ID[:\s]+(\d+)` at `e`: all three runs are followed by a character they cannot take. */
  function IdTailAt(s: string, e: nat): (r: Option<Group>)
    ensures r.Some? ==> e + 3 < r.value.lo < r.value.hi <= |s|
  {
    if e > |s| then None
    else
      var w := Span(s, e, IsSpace);
      if e < w && LitAt(s, w, "ID") then
        var x := Span(s, w + 2, ColonOrSpace);
        var y := Span(s, x, IsDigit);
        if w + 2 < x < y then Some(Group(x, y)) else None
      else None
  }

  lemma IdTailAtSound(s: string, e: nat)
    requires IdTailAt(s, e).Some?
    ensures IdTailParse(s, e, IdTailAt(s, e).value)
    ensures IdTailAt(s, e).value.hi == |s| || !IsDigit(s[IdTailAt(s, e).value.hi])
  {
    var w := Span(s, e, IsSpace);
    var g := IdTailAt(s, e).value;
    SpanRun(s, e, IsSpace);
    SpanRun(s, w + 2, ColonOrSpace);
    SpanRun(s, g.lo, IsDigit);
    assert IdTailGap(s, e, w, g);
  }

  lemma IdTailDigits(s: string, e: nat)
    requires IdTailAt(s, e).Some?
    ensures AllIn(s, IdTailAt(s, e).value.lo, IdTailAt(s, e).value.hi, IsDigit)
  {
    SpanRun(s, IdTailAt(s, e).value.lo, IsDigit);
  }

  /** Every parse at `e` is found, with the same digits' start and the longest digit run. */
  lemma IdTailAtComplete(s: string, e: nat, id: Group)
    requires IdTailParse(s, e, id)
    ensures IdTailAt(s, e).Some? && IdTailAt(s, e).value.lo == id.lo && id.hi <= IdTailAt(s, e).value.hi
  {
    var w: nat :| IdTailGap(s, e, w, id);
    assert !IsSpace(s[w]) by {
      assert s[w] == s[w..w + 2][0] == 'I';
    }
    RunStops(s, e, w, IsSpace);
    assert !ColonOrSpace(s[id.lo]) by {
      assert IsDigit(s[id.lo]);
    }
    RunStops(s, w + 2, id.lo, ColonOrSpace);
    RunWithin(s, id.lo, id.hi, IsDigit);
  }

  /**
   * The lazy `(.+?)` starting at `a`: the first end `e` (at least one
   * character, no newline crossed) after which `\s+ID[:\s]+(\d+)` matches.
   */
  function LazyNameAt(s: string, a: nat): (r: Option<(nat, Group)>)
    ensures r.Some? ==> a <= |s| && a < r.value.0 <= LazyEndMax(s, a, false) && IdTailAt(s, r.value.0) == Some(r.value.1)
    ensures r.Some? ==> forall e | a < e < r.value.0 :: IdTailAt(s, e).None?
  {
    if a > |s| then None
    else
      var at: nat -> Option<Group> := (e: nat) => IdTailAt(s, e);
      var r := First(a + 1, LazyEndMax(s, a, false), at);
      assert r.Some? ==> at(r.value.0) == IdTailAt(s, r.value.0);
      assert r.Some? ==> forall e | a < e < r.value.0 :: at(e) == IdTailAt(s, e);
      r
  }

  /** The advertiser's name `s[name.lo..name.hi]` and ID digits `s[id.lo..id.hi]`. */
  datatype AdvertiserPos = AdvertiserPos(name: Group, id: Group)

  /** Any way the advertiser pattern can match at `p`. */
  ghost predicate AdvertiserParse(s: string, p: nat, m: AdvertiserPos) {
    && LitAt(s, p, "Advertiser:")
    && AllIn(s, p + 11, m.name.lo, IsSpace)
    && m.name.lo < m.name.hi && AllIn(s, m.name.lo, m.name.hi, NotNewline)
    && IdTailParse(s, m.name.hi, m.id)
  }

  /**
   * The match at `p`. The greedy `\s*` tries its longest run first and gives
   * characters back only when no end of the lazy name works; for each start
   * the lazy name takes the first end that lets the rest match.
   */
  function AdvertiserAt(s: string, p: nat): (r: Option<AdvertiserPos>)
    ensures r.Some? ==> p + 11 <= r.value.name.lo < r.value.name.hi < r.value.id.lo < r.value.id.hi <= |s|
  {
    if !LitAt(s, p, "Advertiser:") then None
    else
      var a0 := Span(s, p + 11, IsSpace);
      var at: nat -> Option<(nat, Group)> := (a: nat) => LazyNameAt(s, a);
      match Last(p + 11, a0, at)
      case None => None
      case Some((a, (e, id))) => Some(AdvertiserPos(Group(a, e), id))
  }

  /** What is found parses, and the name is the shortest one that lets the rest match. */
  lemma AdvertiserAtSound(s: string, p: nat)
    requires AdvertiserAt(s, p).Some?
    ensures AdvertiserParse(s, p, AdvertiserAt(s, p).value)
    ensures var m := AdvertiserAt(s, p).value;
      forall e | m.name.lo < e < m.name.hi :: IdTailAt(s, e).None?
  {
    var m := AdvertiserAt(s, p).value;
    SpanRun(s, p + 11, IsSpace);
    var a := m.name.lo;
    assert LazyNameAt(s, a) == Some((m.name.hi, m.id));
    assert AllIn(s, a, m.name.hi, NotNewline);
    IdTailAtSound(s, m.name.hi);
  }

  /** Whenever the advertiser pattern can match at `p`, the search at `p` succeeds. */
  lemma AdvertiserAtComplete(s: string, p: nat, m: AdvertiserPos)
    requires AdvertiserParse(s, p, m)
    ensures AdvertiserAt(s, p).Some?
  {
    var a := m.name.lo;
    RunWithin(s, p + 11, a, IsSpace);
    RunWithin(s, a, m.name.hi, NotNewline);
    assert m.name.hi <= LazyEndMax(s, a, false);
    IdTailAtComplete(s, m.name.hi, m.id);
    var lazy: nat -> Option<Group> := (e: nat) => IdTailAt(s, e);
    assert lazy(m.name.hi).Some?;
    assert LazyNameAt(s, a).Some?;
    var at: nat -> Option<(nat, Group)> := (a': nat) => LazyNameAt(s, a');
    assert at(a).Some?;
  }

  /** `re.search` of the advertiser pattern. */
  function FindAdvertiser(s: string): Option<(nat, AdvertiserPos)> {
    var at: nat -> Option<AdvertiserPos> := (p: nat) => AdvertiserAt(s, p);
    Search(s, at)
  }

  // ---------------------------------------------------------------------------
  // Account ID[:\s]+([\d\-]+)
  // ---------------------------------------------------------------------------

  /** Any way the account pattern can match at `p`, with the group `s[g.lo..g.hi]`. */
  predicate AccountIdParse(s: string, p: nat, g: Group) {
    && LitAt(s, p, "Account ID")
    && p + 10 < g.lo && AllIn(s, p + 10, g.lo, ColonOrSpace)
    && g.lo < g.hi && AllIn(s, g.lo, g.hi, DigitOrDash)
  }

  function AccountIdAt(s: string, p: nat): (r: Option<Group>)
    ensures r.Some? ==> p + 10 < r.value.lo < r.value.hi <= |s|
  {
    if !LitAt(s, p, "Account ID") then None
    else
      var x := Span(s, p + 10, ColonOrSpace);
      var y := Span(s, x, DigitOrDash);
      if p + 10 < x < y then Some(Group(x, y)) else None
  }

  /** What is found parses, and its group is the longest run of digits and dashes. */
  lemma AccountIdAtSound(s: string, p: nat)
    requires AccountIdAt(s, p).Some?
    ensures AccountIdParse(s, p, AccountIdAt(s, p).value)
    ensures var g := AccountIdAt(s, p).value; g.hi == |s| || !DigitOrDash(s[g.hi])
  {
    SpanRun(s, p + 10, ColonOrSpace);
    SpanRun(s, AccountIdAt(s, p).value.lo, DigitOrDash);
  }

  /** Every parse at `p` is found, with the same start and the longest run. */
  lemma AccountIdAtComplete(s: string, p: nat, g: Group)
    requires AccountIdParse(s, p, g)
    ensures AccountIdAt(s, p).Some? && AccountIdAt(s, p).value.lo == g.lo && g.hi <= AccountIdAt(s, p).value.hi
  {
    assert !ColonOrSpace(s[g.lo]) by {
      assert DigitOrDash(s[g.lo]);
    }
    RunStops(s, p + 10, g.lo, ColonOrSpace);
    RunWithin(s, g.lo, g.hi, DigitOrDash);
  }

  /** `re.search` of the account pattern. */
  function FindAccountId(s: string): Option<(nat, Group)> {
    var at: nat -> Option<Group> := (p: nat) => AccountIdAt(s, p);
    Search(s, at)
  }

  // ---------------------------------------------------------------------------
  // TOTAL AMOUNT \(USD\)\s*\$?([\d,]+\.\d{2})   (IGNORECASE)
  // ---------------------------------------------------------------------------

  /** The total pattern matches at `p` with its `\s*` ending at `w`, the amount starting at `v` and its point at `pt`. */
  predicate TotalGap(s: string, p: nat, w: nat, v: nat, pt: nat) {
    && p + 18 <= w <= |s| && AllIn(s, p + 18, w, IsSpace)
    && (v == w || (v == w + 1 && w < |s| && s[w] == '$'))
    && AmountParse(s, v, pt)
  }

  /** Any way the total pattern can match at `p`: the amount starts at `v`, its point is at `pt`. */
  ghost predicate TotalParse(s: string, p: nat, v: nat, pt: nat) {
    LitAtCI(s, p, "total amount (usd)") && exists w: nat :: TotalGap(s, p, w, v, pt)
  }

  /** The match at `p`: the space run and the optional `$` cannot give anything back usefully. */
  function TotalAt(s: string, p: nat): (r: Option<(nat, nat)>)
    ensures r.Some? ==> p + 18 <= r.value.0 < r.value.1 && r.value.1 + 3 <= |s|
  {
    if !LitAtCI(s, p, "total amount (usd)") then None
    else
      var w := Span(s, p + 18, IsSpace);
      var v := if w < |s| && s[w] == '$' then w + 1 else w;
      match AmountAt(s, v)
      case Some(pt) => Some((v, pt))
      case None => None
  }

  lemma TotalAtSound(s: string, p: nat)
    requires TotalAt(s, p).Some?
    ensures TotalParse(s, p, TotalAt(s, p).value.0, TotalAt(s, p).value.1)
    ensures TwoDecimals(RemoveCommas(s[TotalAt(s, p).value.0..TotalAt(s, p).value.1 + 3]))
  {
    var w := Span(s, p + 18, IsSpace);
    var m := TotalAt(s, p).value;
    SpanRun(s, p + 18, IsSpace);
    assert TotalGap(s, p, w, m.0, m.1);
    AmountShape(s, m.0, m.1);
  }

  /** The total pattern has one parse at a position, the one `TotalAt` finds. */
  lemma TotalAtComplete(s: string, p: nat, v: nat, pt: nat)
    requires TotalParse(s, p, v, pt)
    ensures TotalAt(s, p) == Some((v, pt))
  {
    var w: nat :| TotalGap(s, p, w, v, pt);
    assert !IsSpace(s[w]) by {
      if v == w { assert DigitOrComma(s[v]); }
    }
    RunStops(s, p + 18, w, IsSpace);
    AmountAtComplete(s, v, pt);
  }

  /** `re.search` of the total pattern. */
  function FindTotal(s: string): Option<(nat, (nat, nat))> {
    var at: nat -> Option<(nat, nat)> := (p: nat) => TotalAt(s, p);
    Search(s, at)
  }

  // ---------------------------------------------------------------------------
  // extract_fields
  // ---------------------------------------------------------------------------

  /** One row of the Search Ads 360 table, in the column order of the source. */
  datatype Row = Row(
    invoiceType: string, invoiceNum: string, month: string, filename: string, rowType: string,
    advertiserName: string, advertiserId: string, campaign: string, campaignId: string,
    billingCode: string, fee: string, uom: string, unitPrice: string, quantity: string, amount: string)

  /**
   * The advertiser's name and ID from the first advertiser match, each
   * stripped, or two empty strings when there is no match. The ID is a
   * non-empty run of digits exactly when there is a match, and the name has
   * no surrounding whitespace.
   */
  function AdvertiserFields(block: string): (r: (string, string))
    ensures Stripped(r.0)
    ensures forall k | 0 <= k < |r.1| :: IsDigit(r.1[k])
    ensures r.1 != [] <==> FindAdvertiser(block).Some?
  {
    match FindAdvertiser(block)
    case None => ("", "")
    case Some((p, m)) =>
      AdvertiserIdDigits(block, p);
      (Strip(Slice(block, m.name)), Strip(Slice(block, m.id)))
  }

  /** The stripped ID of an advertiser match is its digits, unchanged. */
  lemma AdvertiserIdDigits(s: string, p: nat)
    requires AdvertiserAt(s, p).Some?
    ensures var id := Slice(s, AdvertiserAt(s, p).value.id);
      id != [] && Strip(id) == id && forall k | 0 <= k < |id| :: IsDigit(id[k])
  {
    var m := AdvertiserAt(s, p).value;
    assert LazyNameAt(s, m.name.lo) == Some((m.name.hi, m.id));
    IdTailDigits(s, m.name.hi);
    var id := Slice(s, m.id);
    assert forall k | 0 <= k < |id| :: IsDigit(id[k]);
    StripNoop(id);
  }

  /** The stripped account ID of the first account match, digits and dashes, or `""`. */
  function AccountField(block: string): (r: string)
    ensures forall k | 0 <= k < |r| :: DigitOrDash(r[k])
    ensures r != [] <==> FindAccountId(block).Some?
  {
    match FindAccountId(block)
    case None => ""
    case Some((p, g)) =>
      AccountIdAtSound(block, p);
      var id := Slice(block, g);
      assert forall k | 0 <= k < |id| :: DigitOrDash(id[k]);
      StripNoop(id);
      Strip(id)
  }

  /**
   * Quantity, unit price and amount of the first financial match, commas
   * removed from the quantity and the amount, or three empty strings. The
   * quantity is digits (none at all when the group is only commas), the unit
   * price a non-empty run of digits and points, the amount digits, a point
   * and two decimals.
   */
  function FinancialFields(block: string): (r: (string, string, string))
    ensures FindFinancial(block).None? ==> r == ("", "", "")
    ensures FindFinancial(block).Some? ==> FinancialFieldsShape(r.0, r.1, r.2)
  {
    match FindFinancial(block)
    case None => ("", "", "")
    case Some((p, m)) =>
      FinancialAtSound(block, p);
      FinancialMatchShape(block, p, m);
      (RemoveCommas(Slice(block, m.qty)), Slice(block, m.price), RemoveCommas(block[m.amount..m.point + 3]))
  }

  /** Quantity digits, unit price digits and points, amount with two decimals. */
  predicate FinancialFieldsShape(quantity: string, unitPrice: string, amount: string) {
    && (forall k | 0 <= k < |quantity| :: IsDigit(quantity[k]))
    && unitPrice != [] && (forall k | 0 <= k < |unitPrice| :: DigitOrDot(unitPrice[k]))
    && TwoDecimals(amount)
  }

  lemma FinancialMatchShape(s: string, p: nat, m: FinancialPos)
    requires FinancialParse(s, p, m)
    ensures FinancialFieldsShape(RemoveCommas(Slice(s, m.qty)), Slice(s, m.price), RemoveCommas(s[m.amount..m.point + 3]))
  {
    QuantityDigits(s, m.qty);
    var price := Slice(s, m.price);
    assert forall k | 0 <= k < |price| :: DigitOrDot(price[k]);
    AmountShape(s, m.amount, m.point);
  }

  /** A digit-comma run with its commas removed is digits. */
  lemma QuantityDigits(s: string, g: Group)
    requires g.lo <= g.hi && AllIn(s, g.lo, g.hi, DigitOrComma)
    ensures forall k | 0 <= k < |RemoveCommas(Slice(s, g))| :: IsDigit(RemoveCommas(Slice(s, g))[k])
  {
    var q := Slice(s, g);
    assert forall k | 0 <= k < |q| :: DigitOrComma(q[k]);
    RemoveCommasKeepsClass(q, IsDigit);
  }

  /** `extract_fields(block)`: the detail row of one block. */
  function ExtractFields(block: string, invoiceNum: string, filename: string, month: string): (r: Row)
    ensures r.invoiceType == "Search Ads 360" && r.rowType == "detail" && r.fee == "% Media Spend"
    ensures r.invoiceNum == invoiceNum && r.month == month && r.filename == filename
    ensures r.campaign == "" && r.billingCode == "" && r.uom == ""
    ensures (r.advertiserName, r.advertiserId) == AdvertiserFields(block) && r.campaignId == AccountField(block)
    ensures (r.quantity, r.unitPrice, r.amount) == FinancialFields(block)
  {
    var (name, advId) := AdvertiserFields(block);
    var (quantity, unitPrice, amount) := FinancialFields(block);
    Row("Search Ads 360", invoiceNum, month, filename, "detail", name, advId, "", AccountField(block),
        "", "% Media Spend", "", unitPrice, quantity, amount)
  }

  // ---------------------------------------------------------------------------
  // Lines and blocks
  // ---------------------------------------------------------------------------

  /** The condition that closes a block: the financial pattern matches and `Advertiser:` occurs. */
  predicate IsDetailBlock(block: string) {
    FindFinancial(block).Some? && Contains(block, "Advertiser:")
  }

  /**
   * The loop over the cleaned lines, from a given buffer: the groups of lines
   * that were closed as blocks, and the buffer left over at the end.
   */
  function Groups(lines: seq<string>, buffer: seq<string>, closes: string -> bool): (r: (seq<seq<string>>, seq<string>))
    ensures |r.0| <= |lines|
    decreases |lines|
  {
    if lines == [] then ([], buffer)
    else
      var b := buffer + [lines[0]];
      if closes(Join(" ", b)) then
        var rest := Groups(lines[1..], [], closes);
        ([b] + rest.0, rest.1)
      else Groups(lines[1..], b, closes)
  }

  /** One turn of the loop: line `i` joins the buffer, which is closed if the block now reads as a detail block. */
  lemma GroupsStep(lines: seq<string>, i: nat, buffer: seq<string>, closes: string -> bool)
    requires i < |lines|
    ensures var b := buffer + [lines[i]];
      Groups(lines[i..], buffer, closes) ==
        if closes(Join(" ", b)) then ([b] + Groups(lines[i + 1..], [], closes).0, Groups(lines[i + 1..], [], closes).1)
        else Groups(lines[i + 1..], b, closes)
  {
    assert lines[i..][0] == lines[i] && lines[i..][1..] == lines[i + 1..];
  }

  function Concat(xss: seq<seq<string>>): seq<string> {
    if xss == [] then [] else xss[0] + Concat(xss[1..])
  }

  lemma {:induction false} ConcatSnoc(xss: seq<seq<string>>, xs: seq<string>)
    ensures Concat(xss + [xs]) == Concat(xss) + xs
  {
    if xss != [] {
      assert (xss + [xs])[1..] == xss[1..] + [xs];
      ConcatSnoc(xss[1..], xs);
    } else {
      assert [xs][1..] == [];
    }
  }

  /** Every line lands in exactly one group or in the leftover buffer, in order. */
  lemma {:induction false} GroupsPartition(lines: seq<string>, buffer: seq<string>, closes: string -> bool)
    ensures Concat(Groups(lines, buffer, closes).0) + Groups(lines, buffer, closes).1 == buffer + lines
    decreases |lines|
  {
    if lines != [] {
      var b := buffer + [lines[0]];
      assert b + lines[1..] == buffer + lines;
      if closes(Join(" ", b)) {
        var rest := Groups(lines[1..], [], closes);
        GroupsPartition(lines[1..], [], closes);
        assert ([b] + rest.0)[1..] == rest.0;
        assert Concat([b] + rest.0) == b + Concat(rest.0);
        assert Groups(lines, buffer, closes) == ([b] + rest.0, rest.1);
        assert [] + lines[1..] == lines[1..];
      } else {
        GroupsPartition(lines[1..], b, closes);
      }
    }
  }

  /** No non-empty prefix of `b` closes a block. */
  predicate Quiet(b: seq<string>, closes: string -> bool) {
    forall j | 1 <= j <= |b| :: !closes(Join(" ", b[..j]))
  }

  /**
   * Each group is closed by its last line and by no earlier one, and the
   * leftover buffer never closed: the groups are the shortest prefixes that
   * read as a detail block, taken one after the other.
   */
  lemma {:induction false} GroupsShortest(lines: seq<string>, buffer: seq<string>, closes: string -> bool)
    requires Quiet(buffer, closes)
    ensures var r := Groups(lines, buffer, closes);
      && (forall k | 0 <= k < |r.0| :: r.0[k] != [] && closes(Join(" ", r.0[k])) && Quiet(r.0[k][..|r.0[k]| - 1], closes))
      && Quiet(r.1, closes)
    decreases |lines|
  {
    if lines != [] {
      var b := buffer + [lines[0]];
      assert b[..|b| - 1] == buffer;
      if closes(Join(" ", b)) {
        var rest := Groups(lines[1..], [], closes);
        GroupsShortest(lines[1..], [], closes);
        var r := Groups(lines, buffer, closes);
        assert r.0 == [b] + rest.0;
        forall k | 0 <= k < |r.0|
          ensures r.0[k] != [] && closes(Join(" ", r.0[k])) && Quiet(r.0[k][..|r.0[k]| - 1], closes)
        {
          if k > 0 { assert r.0[k] == rest.0[k - 1]; }
        }
      } else {
        assert Quiet(b, closes) by {
          forall j | 1 <= j <= |b| ensures !closes(Join(" ", b[..j])) {
            if j < |b| { assert b[..j] == buffer[..j]; }
            else { assert b[..j] == b; }
          }
        }
        GroupsShortest(lines[1..], b, closes);
      }
    }
  }

  // ---------------------------------------------------------------------------
  // extract_sa360
  // ---------------------------------------------------------------------------

  /** The cleaned lines of the joined page text. */
  function SourceLines(pages: Pages): seq<string> {
    CleanLines(SplitLines(FullText(pages)))
  }

  /**
   * The printed total: the amount of the first `TOTAL AMOUNT (USD)` match in
   * the cleaned lines joined by newlines, commas removed, or `""`.
   */
  function Subtotal(lines: seq<string>): (r: string)
    ensures r == [] || TwoDecimals(r)
    ensures r == [] <==> FindTotal(Join("\n", lines)).None?
  {
    var t := Join("\n", lines);
    match FindTotal(t)
    case None => ""
    case Some((p, m)) =>
      TotalAtSound(t, p);
      RemoveCommas(t[m.0..m.1 + 3])
  }

  /** The closing summary row, which carries the printed total. */
  function SummaryRow(invoiceNum: string, filename: string, month: string, subtotal: string): Row {
    Row("Search Ads 360", invoiceNum, month, filename, "summary", "", "", "", "", "", "Subtotal", "", "", "", subtotal)
  }

  /** The rows `emit` makes of the closed groups' blocks, in order. */
  function DetailRows(groups: seq<seq<string>>, emit: string -> Row): (r: seq<Row>)
    ensures |r| == |groups|
    ensures forall k | 0 <= k < |groups| :: r[k] == emit(Join(" ", groups[k]))
  {
    seq(|groups|, k requires 0 <= k < |groups| => emit(Join(" ", groups[k])))
  }

  lemma DetailRowsSnoc(groups: seq<seq<string>>, g: seq<string>, emit: string -> Row)
    ensures DetailRows(groups + [g], emit) == DetailRows(groups, emit) + [emit(Join(" ", g))]
  {
    var l := DetailRows(groups + [g], emit);
    var r := DetailRows(groups, emit) + [emit(Join(" ", g))];
    assert |l| == |r|;
    forall k | 0 <= k < |l| ensures l[k] == r[k] {
      if k < |groups| { assert (groups + [g])[k] == groups[k]; }
    }
  }

  /** `extract_fields` with the invoice's header. */
  function Emitter(invoiceNum: string, filename: string, month: string): string -> Row {
    (block: string) => ExtractFields(block, invoiceNum, filename, month)
  }

  /** The table `extract_sa360` returns: a detail row per closed block, then the summary row. */
  function Table(pages: Pages, invoiceNum: string, filename: string, month: string): seq<Row> {
    var lines := SourceLines(pages);
    DetailRows(Groups(lines, [], IsDetailBlock).0, Emitter(invoiceNum, filename, month))
      + [SummaryRow(invoiceNum, filename, month, Subtotal(lines))]
  }

  /**
   * The loop over the cleaned lines: buffer them, and emit a row each time
   * the buffered block passes `closes`. The test and the row builder are
   * parameters, so that the loop's proof does not look inside them.
   */
  method CollectDetails(lines: seq<string>, closes: string -> bool, emit: string -> Row) returns (rows: seq<Row>)
    ensures rows == DetailRows(Groups(lines, [], closes).0, emit)
  {
    var buffer: seq<string> := [];
    ghost var closed: seq<seq<string>> := [];
    rows := [];
    var i := 0;
    while i < |lines|
      invariant 0 <= i <= |lines|
      invariant Groups(lines, [], closes).0 == closed + Groups(lines[i..], buffer, closes).0
      invariant rows == DetailRows(closed, emit)
    {
      GroupsStep(lines, i, buffer, closes);
      buffer := buffer + [lines[i]];
      var block := Join(" ", buffer);
      if closes(block) {
        rows := rows + [emit(block)];
        DetailRowsSnoc(closed, buffer, emit);
        closed := closed + [buffer];
        buffer := [];
      }
      i := i + 1;
    }
    assert lines[i..] == [];
  }

  /** `extract_sa360(text_dict, invoice_num, filename, invoice_month)`. */
  method Extract(pages: Pages, invoiceNum: string, filename: string, month: string) returns (rows: seq<Row>)
    ensures rows == Table(pages, invoiceNum, filename, month)
  {
    var lines := SourceLines(pages);
    rows := CollectDetails(lines, IsDetailBlock, Emitter(invoiceNum, filename, month));
    rows := rows + [SummaryRow(invoiceNum, filename, month, Subtotal(lines))];
  }

  /**
   * The table ends with exactly one summary row, which carries the printed
   * total or nothing; every row before it is a detail row with a quantity,
   * unit price and two-decimal amount; and there are at most as many detail
   * rows as cleaned lines.
   */
  lemma TableShape(pages: Pages, invoiceNum: string, filename: string, month: string)
    ensures var t := Table(pages, invoiceNum, filename, month);
      && 1 <= |t| <= |SourceLines(pages)| + 1
      && t[|t| - 1].rowType == "summary" && t[|t| - 1].fee == "Subtotal"
      && (t[|t| - 1].amount == [] || TwoDecimals(t[|t| - 1].amount))
      && forall k | 0 <= k < |t| - 1 ::
           && t[k].rowType == "detail" && t[k].fee == "% Media Spend"
           && FinancialFieldsShape(t[k].quantity, t[k].unitPrice, t[k].amount)
  {
    var lines := SourceLines(pages);
    var closes: string -> bool := IsDetailBlock;
    var gs := Groups(lines, [], closes).0;
    GroupsShortest(lines, [], closes);
    var t := Table(pages, invoiceNum, filename, month);
    assert t[|t| - 1] == SummaryRow(invoiceNum, filename, month, Subtotal(lines));
    forall k | 0 <= k < |t| - 1
      ensures t[k].rowType == "detail" && t[k].fee == "% Media Spend"
      ensures FinancialFieldsShape(t[k].quantity, t[k].unitPrice, t[k].amount)
    {
      assert t[k] == Emitter(invoiceNum, filename, month)(Join(" ", gs[k]));
      assert t[k] == ExtractFields(Join(" ", gs[k]), invoiceNum, filename, month);
      assert closes(Join(" ", gs[k]));
    }
  }
}
