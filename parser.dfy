/**
 * The document-level helpers of `gInvoiceParser/parser.py`: page keys,
 * product classification, the generic invoice-number and billing-period
 * patterns, the SA360 re-extraction patterns and the extractor table.
 */
module Parser {
  import opened Options
  import opened Text
  import opened Scan
  import opened Patterns

  // ---------------------------------------------------------------------------
  // Page map
  // ---------------------------------------------------------------------------

  /**
   * A document's page map: page `k` of the sequence is the entry keyed
   * `PageKey(k)`, and dictionary order is page order.
   */
  type Pages = seq<string>

  /** The key `build_text_dict` gives the page at index `k`: `f"page_{k + 1}"`. */
  function PageKey(k: nat): string
  {
    "page_" + NatToString(k + 1)
  }

  /** Keys are distinct, so the page map has one entry per page. */
  lemma PageKeyInjective(j: nat, k: nat)
    requires PageKey(j) == PageKey(k)
    ensures j == k
  {
    assert NatToString(j + 1) == PageKey(j)[5..];
    assert NatToString(k + 1) == PageKey(k)[5..];
    NatToStringInjective(j + 1, k + 1);
  }

  /** Only the first page is keyed `"page_1"`. */
  lemma PageKeyFirst(k: nat)
    ensures PageKey(k) == "page_1" <==> k == 0
  {
    assert NatToString(1) == "1";
    if PageKey(k) == "page_1" {
      assert NatToString(k + 1) == PageKey(k)[5..] == "1";
      NatToStringInjective(k + 1, 1);
    }
  }

  /** `"\n".join(p.get("text", "") for p in text_dict.values())`. */
  function FullText(pages: Pages): string
  {
    Join("\n", pages)
  }

  // ---------------------------------------------------------------------------
  // identify_product
  // ---------------------------------------------------------------------------

  /** The product tags `identify_product` returns. */
  datatype Product = CM360 | GOOGLE_ADS | GOOGLE_WORKSPACE | LINKEDIN | DV360 | SA360 | UNKNOWN

  /** The tag as the Python string the rest of the program keys on. */
  function ProductName(p: Product): (r: string)
    ensures p != UNKNOWN ==> r != "UNKNOWN"
  {
    match p
    case CM360 => "CM360"
    case GOOGLE_ADS => "GOOGLE_ADS"
    case GOOGLE_WORKSPACE => "GOOGLE_WORKSPACE"
    case LINKEDIN => "LINKEDIN"
    case DV360 => "DV360"
    case SA360 => "SA360"
    case UNKNOWN => "UNKNOWN"
  }

  lemma ProductNameInjective(p: Product, q: Product)
    requires ProductName(p) == ProductName(q)
    ensures p == q
  {
  }

  /** The family-defining phrases with their tags, in the priority order of the tests. */
  const Signatures: seq<(string, Product)> := [
    ("Campaign Manager 360", CM360),
    ("Google Ads", GOOGLE_ADS),
    ("Google Workspace", GOOGLE_WORKSPACE),
    ("LinkedIn", LINKEDIN),
    ("Display and Video 360", DV360),
    ("Display & Video 360", DV360),
    ("Search Ads 360", SA360)
  ]

  /** Reference definition: the tag of the first signature phrase in `sigs` that occurs in `t`. */
  function FirstSignature(t: string, sigs: seq<(string, Product)>): Product
  {
    if sigs == [] then UNKNOWN
    else if Contains(t, sigs[0].0) then sigs[0].1
    else FirstSignature(t, sigs[1..])
  }

  /** `SuperHeroFlex.identify_product`: ordered substring tests over the joined page text. */
  function IdentifyProduct(pages: Pages): Product
  {
    var t := FullText(pages);
    if Contains(t, "Campaign Manager 360") then CM360
    else if Contains(t, "Google Ads") then GOOGLE_ADS
    else if Contains(t, "Google Workspace") then GOOGLE_WORKSPACE
    else if Contains(t, "LinkedIn") then LINKEDIN
    else if Contains(t, "Display and Video 360") || Contains(t, "Display & Video 360") then DV360
    else if Contains(t, "Search Ads 360") then SA360
    else UNKNOWN
  }

  /** Classification is first-match over the signature list, in its order. */
  lemma IdentifyProductIsFirstMatch(pages: Pages)
    ensures IdentifyProduct(pages) == FirstSignature(FullText(pages), Signatures)
  {
    var t := FullText(pages);
    assert FirstSignature(t, Signatures[6..]) == if Contains(t, "Search Ads 360") then SA360 else UNKNOWN by {
      assert Signatures[6..][1..] == [];
    }
    assert FirstSignature(t, Signatures[5..]) == if Contains(t, "Display & Video 360") then DV360 else FirstSignature(t, Signatures[6..]) by {
      assert Signatures[5..][1..] == Signatures[6..];
    }
    assert FirstSignature(t, Signatures[4..]) == if Contains(t, "Display and Video 360") then DV360 else FirstSignature(t, Signatures[5..]) by {
      assert Signatures[4..][1..] == Signatures[5..];
    }
    assert FirstSignature(t, Signatures[3..]) == if Contains(t, "LinkedIn") then LINKEDIN else FirstSignature(t, Signatures[4..]) by {
      assert Signatures[3..][1..] == Signatures[4..];
    }
    assert FirstSignature(t, Signatures[2..]) == if Contains(t, "Google Workspace") then GOOGLE_WORKSPACE else FirstSignature(t, Signatures[3..]) by {
      assert Signatures[2..][1..] == Signatures[3..];
    }
    assert FirstSignature(t, Signatures[1..]) == if Contains(t, "Google Ads") then GOOGLE_ADS else FirstSignature(t, Signatures[2..]) by {
      assert Signatures[1..][1..] == Signatures[2..];
    }
  }

  /** The result is UNKNOWN exactly when none of the seven phrases occurs. */
  lemma UnknownIffNoSignature(pages: Pages)
    ensures IdentifyProduct(pages) == UNKNOWN <==>
      forall k | 0 <= k < |Signatures| :: !Contains(FullText(pages), Signatures[k].0)
  {
    var t := FullText(pages);
    if IdentifyProduct(pages) == UNKNOWN {
      forall k | 0 <= k < |Signatures|
        ensures !Contains(t, Signatures[k].0)
      {
        if k == 0 {} else if k == 1 {} else if k == 2 {} else if k == 3 {} else if k == 4 {} else if k == 5 {} else {}
      }
    } else {
      IdentifyProductSound(pages);
    }
  }

  /** A known tag is only returned when one of its own phrases occurs. */
  lemma IdentifyProductSound(pages: Pages)
    ensures IdentifyProduct(pages) != UNKNOWN ==>
      exists k | 0 <= k < |Signatures| :: Signatures[k].1 == IdentifyProduct(pages) && Contains(FullText(pages), Signatures[k].0)
  {
    var t := FullText(pages);
    var r := IdentifyProduct(pages);
    if r == CM360 { assert Signatures[0].1 == r && Contains(t, Signatures[0].0); }
    else if r == GOOGLE_ADS { assert Signatures[1].1 == r && Contains(t, Signatures[1].0); }
    else if r == GOOGLE_WORKSPACE { assert Signatures[2].1 == r && Contains(t, Signatures[2].0); }
    else if r == LINKEDIN { assert Signatures[3].1 == r && Contains(t, Signatures[3].0); }
    else if r == DV360 {
      if Contains(t, "Display and Video 360") { assert Signatures[4].1 == r && Contains(t, Signatures[4].0); }
      else { assert Signatures[5].1 == r && Contains(t, Signatures[5].0); }
    }
    else if r == SA360 { assert Signatures[6].1 == r && Contains(t, Signatures[6].0); }
  }

  /** An earlier phrase wins: "Google Ads" beats "Search Ads 360" wherever they occur. */
  lemma GoogleAdsBeatsSearchAds(pages: Pages)
    requires Contains(FullText(pages), "Google Ads") && Contains(FullText(pages), "Search Ads 360")
    requires !Contains(FullText(pages), "Campaign Manager 360")
    ensures IdentifyProduct(pages) == GOOGLE_ADS
  {
  }

  // ---------------------------------------------------------------------------
  // extract_invoice_number: Invoice number[:\s]*([0-9]{7,})   (IGNORECASE)
  // ---------------------------------------------------------------------------

  /** Any way the pattern can match at `i`, with group 1 = `s[g.lo..g.hi]`. */
  predicate InvoiceNumberParse(s: string, i: nat, g: Group) {
    && LitAtCI(s, i, "invoice number")
    && AllIn(s, i + 14, g.lo, ColonOrSpace)
    && AllIn(s, g.lo, g.hi, IsDigit) && g.hi - g.lo >= 7
  }

  /** The match at `i`, as the greedy quantifiers take it. */
  function InvoiceNumberAt(s: string, i: nat): (r: Option<Group>)
    ensures r.Some? ==> InvoiceNumberParse(s, i, r.value)
    ensures r.Some? ==> r.value.hi == |s| || !IsDigit(s[r.value.hi])
  {
    if !LitAtCI(s, i, "invoice number") then None
    else
      var j := Span(s, i + 14, ColonOrSpace);
      var k := Span(s, j, IsDigit);
      SpanRun(s, i + 14, ColonOrSpace);
      SpanRun(s, j, IsDigit);
      if k - j >= 7 then Some(Group(j, k)) else None
  }

  /** Every parse at `i` is found, and it is the one whose digit run is longest. */
  lemma InvoiceNumberAtComplete(s: string, i: nat, g: Group)
    requires InvoiceNumberParse(s, i, g)
    ensures InvoiceNumberAt(s, i).Some?
    ensures InvoiceNumberAt(s, i).value.lo == g.lo && g.hi <= InvoiceNumberAt(s, i).value.hi
  {
    var j := Span(s, i + 14, ColonOrSpace);
    RunStops(s, i + 14, g.lo, ColonOrSpace);
    RunWithin(s, g.lo, g.hi, IsDigit);
  }

  /** The first match in `t`: where it starts and its group. */
  function FindInvoiceNumber(t: string): (r: Option<(nat, Group)>)
    ensures r.Some? ==> InvoiceNumberParse(t, r.value.0, r.value.1)
  {
    var at: nat -> Option<Group> := (p: nat) => InvoiceNumberAt(t, p);
    Search(t, at)
  }

  /** No invoice-number match starts before the one found: `re.search` keeps the leftmost. */
  lemma FindInvoiceNumberLeftmost(t: string, p: nat, g: Group)
    requires InvoiceNumberParse(t, p, g)
    ensures FindInvoiceNumber(t).Some? && FindInvoiceNumber(t).value.0 <= p
  {
    var at: nat -> Option<Group> := (q: nat) => InvoiceNumberAt(t, q);
    InvoiceNumberAtComplete(t, p, g);
    assert at(p).Some?;
    assert FindInvoiceNumber(t) == Search(t, at);
  }

  /**
   * `extract_invoice_number`: the digit run of the first match in the joined
   * page text, taken whole.
   */
  function ExtractInvoiceNumber(pages: Pages): (r: Option<string>)
    ensures r.Some? ==> |r.value| >= 7 && forall k | 0 <= k < |r.value| :: IsDigit(r.value[k])
    ensures r.None? <==> FindInvoiceNumber(FullText(pages)).None?
    ensures r.Some? ==> r.value == Slice(FullText(pages), FindInvoiceNumber(FullText(pages)).value.1)
  {
    var t := FullText(pages);
    match FindInvoiceNumber(t)
    case None => None
    case Some((p, g)) => Some(t[g.lo..g.hi])
  }

  // ---------------------------------------------------------------------------
  // extract_invoice_month:
  //   (Jan|...|Dec)[a-z]*\s+\d{1,2},\s+\d{4}\s*[-–]\s*(Jan|...|Dec)[a-z]*\s+\d{1,2},\s+\d{4}
  // ---------------------------------------------------------------------------

  const MonthAbbrevs: seq<string> := ["Jan", "Feb", "Mar", "Apr", "May", "Jun", "Jul", "Aug", "Sep", "Oct", "Nov", "Dec"]

  /** `a b c` spells one of the twelve month abbreviations (case matters). */
  predicate IsMonthAbbrev(a: char, b: char, c: char) {
    || (a == 'J' && b == 'a' && c == 'n') || (a == 'F' && b == 'e' && c == 'b')
    || (a == 'M' && b == 'a' && c == 'r') || (a == 'A' && b == 'p' && c == 'r')
    || (a == 'M' && b == 'a' && c == 'y') || (a == 'J' && b == 'u' && c == 'n')
    || (a == 'J' && b == 'u' && c == 'l') || (a == 'A' && b == 'u' && c == 'g')
    || (a == 'S' && b == 'e' && c == 'p') || (a == 'O' && b == 'c' && c == 't')
    || (a == 'N' && b == 'o' && c == 'v') || (a == 'D' && b == 'e' && c == 'c')
  }

  /** The alternation `(Jan|Feb|...|Dec)` matches at `i`. */
  predicate MonthAbbrevAt(s: string, i: nat) {
    i + 3 <= |s| && IsMonthAbbrev(s[i], s[i + 1], s[i + 2])
  }

  /** Where a recognised abbreviation sits in `MonthAbbrevs`. */
  function MonthIndex(w: string): (k: nat)
    requires |w| == 3 && IsMonthAbbrev(w[0], w[1], w[2])
    ensures k < |MonthAbbrevs| && MonthAbbrevs[k] == w
  {
    if w == "Jan" then 0 else if w == "Feb" then 1 else if w == "Mar" then 2
    else if w == "Apr" then 3 else if w == "May" then 4 else if w == "Jun" then 5
    else if w == "Jul" then 6 else if w == "Aug" then 7 else if w == "Sep" then 8
    else if w == "Oct" then 9 else if w == "Nov" then 10 else assert w == "Dec"; 11
  }

  /** Each of the twelve names passes the three-letter test. */
  lemma MonthAbbrevSpelled(k: nat)
    requires k < |MonthAbbrevs|
    ensures |MonthAbbrevs[k]| == 3
    ensures IsMonthAbbrev(MonthAbbrevs[k][0], MonthAbbrevs[k][1], MonthAbbrevs[k][2])
  {
  }

  /** The three-letter test is the alternation over the twelve names. */
  lemma MonthAbbrevAtIff(s: string, i: nat)
    ensures MonthAbbrevAt(s, i) <==> exists k | 0 <= k < |MonthAbbrevs| :: LitAt(s, i, MonthAbbrevs[k])
  {
    if i + 3 <= |s| {
      var w := s[i..i + 3];
      assert w == [s[i], s[i + 1], s[i + 2]];
      if MonthAbbrevAt(s, i) {
        var k := MonthIndex(w);
        assert LitAt(s, i, MonthAbbrevs[k]);
      }
      if exists k | 0 <= k < |MonthAbbrevs| :: LitAt(s, i, MonthAbbrevs[k]) {
        var k :| 0 <= k < |MonthAbbrevs| && LitAt(s, i, MonthAbbrevs[k]);
        MonthAbbrevSpelled(k);
        assert w[0] == MonthAbbrevs[k][0] && w[1] == MonthAbbrevs[k][1] && w[2] == MonthAbbrevs[k][2];
      }
    }
  }

  predicate IsDash(c: char) { c == '-' || c == '\U{2013}' }

  /** `(Jan|...|Dec)[a-z]*\s+\d{1,2},\s+\d{4}` matches at `i`, with positions `m`. */
  predicate MonDateParse(s: string, i: nat, m: DatePos) {
    MonthAbbrevAt(s, i) && AllIn(s, i + 3, m.a, IsLowerLetter) && DateTailParse(s, false, m)
  }

  /** The match of one date at `i`, as the greedy quantifiers take it. */
  function MonDateAt(s: string, i: nat): (r: Option<DatePos>)
    ensures r.Some? ==> i + 3 <= r.value.a < r.value.b < r.value.c < r.value.d && r.value.d + 4 <= |s|
  {
    if i + 3 > |s| || !MonthAbbrevAt(s, i) then None
    else DateTailAt(s, Span(s, i + 3, IsLowerLetter), false)
  }

  lemma MonDateAtSound(s: string, i: nat, m: DatePos)
    requires MonDateAt(s, i) == Some(m)
    ensures MonDateParse(s, i, m)
  {
    SpanRun(s, i + 3, IsLowerLetter);
    DateTailAtSound(s, Span(s, i + 3, IsLowerLetter), false);
  }

  /** A month abbreviation starts with a capital letter. */
  lemma MonthAbbrevUpper(s: string, i: nat)
    requires MonthAbbrevAt(s, i)
    ensures i + 3 <= |s| && IsUpper(s[i])
  {
  }

  lemma MonDateAtComplete(s: string, i: nat, m: DatePos)
    requires MonDateParse(s, i, m)
    ensures MonDateAt(s, i) == Some(m)
  {
    RunStops(s, i + 3, m.a, IsLowerLetter);
    DateTailAtComplete(s, false, m);
  }

  /** Positions of a billing-period match: two dates around a hyphen or en dash at `dash`. */
  datatype RangePos = RangePos(first: DatePos, dash: nat, start2: nat, second: DatePos)

  /** What follows the first date: `\s*[-–]\s*` and the second date. */
  predicate RangeTailParse(s: string, r: RangePos) {
    && AllIn(s, r.first.d + 4, r.dash, IsSpace) && r.dash < |s| && IsDash(s[r.dash])
    && AllIn(s, r.dash + 1, r.start2, IsSpace)
    && MonDateParse(s, r.start2, r.second)
  }

  /** `(Jan|...|Dec)[a-z]*\s+\d{1,2},\s+\d{4}\s*[-–]\s*(Jan|...|Dec)[a-z]*\s+\d{1,2},\s+\d{4}` matches at `i`. */
  predicate MonthRangeParse(s: string, i: nat, r: RangePos) {
    MonDateParse(s, i, r.first) && RangeTailParse(s, r)
  }

  /** The rest of a billing-period match after the first date `m1`. */
  function RangeTailAt(s: string, m1: DatePos): (r: Option<RangePos>)
    ensures r.Some? ==> r.value.first == m1 && m1.d + 4 <= r.value.dash < r.value.start2 && r.value.second.d + 4 <= |s|
  {
    if m1.d + 4 > |s| then None
    else
      var x := Span(s, m1.d + 4, IsSpace);
      if x < |s| && IsDash(s[x]) then
        var y := Span(s, x + 1, IsSpace);
        match MonDateAt(s, y)
        case None => None
        case Some(m2) => Some(RangePos(m1, x, y, m2))
      else None
  }

  lemma RangeTailAtSound(s: string, m1: DatePos)
    requires RangeTailAt(s, m1).Some?
    ensures RangeTailParse(s, RangeTailAt(s, m1).value)
  {
    var r := RangeTailAt(s, m1).value;
    RangeTailAtShape(s, m1);
    SpaceRun(s, m1.d + 4, r.dash);
    SpaceRun(s, r.dash + 1, r.start2);
    MonDateAtSound(s, r.start2, r.second);
    RangeTailParts(s, r);
  }

  /** The positions of a tail found at `m1`, as the function computes them. */
  lemma RangeTailAtShape(s: string, m1: DatePos)
    requires RangeTailAt(s, m1).Some?
    ensures var r := RangeTailAt(s, m1).value;
      && r.first == m1 && m1.d + 4 <= |s| && r.dash == Span(s, m1.d + 4, IsSpace) && r.dash < |s| && IsDash(s[r.dash])
      && r.start2 == Span(s, r.dash + 1, IsSpace) && MonDateAt(s, r.start2) == Some(r.second)
  {
  }

  /** A whitespace run found by `Span`. */
  lemma SpaceRun(s: string, i: nat, j: nat)
    requires i <= |s| && j == Span(s, i, IsSpace)
    ensures AllIn(s, i, j, IsSpace)
  {
    SpanRun(s, i, IsSpace);
  }

  /** The runs around the dash and the second date make the tail of a range. */
  lemma RangeTailParts(s: string, r: RangePos)
    requires AllIn(s, r.first.d + 4, r.dash, IsSpace) && r.dash < |s| && IsDash(s[r.dash])
    requires AllIn(s, r.dash + 1, r.start2, IsSpace) && MonDateParse(s, r.start2, r.second)
    ensures RangeTailParse(s, r)
  {
  }

  /** The two `\s*` runs around the dash end where the parse says. */
  lemma RangeTailSpans(s: string, r: RangePos)
    requires AllIn(s, r.first.d + 4, r.dash, IsSpace) && r.dash < |s| && IsDash(s[r.dash])
    requires AllIn(s, r.dash + 1, r.start2, IsSpace) && r.start2 < |s| && IsUpper(s[r.start2])
    ensures Span(s, r.first.d + 4, IsSpace) == r.dash && Span(s, r.dash + 1, IsSpace) == r.start2
  {
    RunStops(s, r.first.d + 4, r.dash, IsSpace);
    RunStops(s, r.dash + 1, r.start2, IsSpace);
  }

  lemma RangeTailAtComplete(s: string, r: RangePos)
    requires RangeTailParse(s, r)
    ensures RangeTailAt(s, r.first) == Some(r)
  {
    MonthAbbrevUpper(s, r.start2);
    RangeTailSpans(s, r);
    MonDateAtComplete(s, r.start2, r.second);
    RangeTailAtFrom(s, r);
  }

  lemma RangeTailAtFrom(s: string, r: RangePos)
    requires r.first.d + 4 <= r.dash < |s| && IsDash(s[r.dash])
    requires Span(s, r.first.d + 4, IsSpace) == r.dash && Span(s, r.dash + 1, IsSpace) == r.start2
    requires MonDateAt(s, r.start2) == Some(r.second)
    ensures RangeTailAt(s, r.first) == Some(r)
  {
    var x := Span(s, r.first.d + 4, IsSpace);
    var y := Span(s, x + 1, IsSpace);
    assert y == r.start2;
    var m2 := MonDateAt(s, y);
    assert m2 == Some(r.second);
    assert RangeTailAt(s, r.first) == Some(RangePos(r.first, x, y, r.second));
  }

  /** The billing-period match at `i`. */
  function MonthRangeAt(s: string, i: nat): (r: Option<RangePos>)
    ensures r.Some? ==> i < r.value.second.d + 4 <= |s|
  {
    match MonDateAt(s, i)
    case None => None
    case Some(m1) => RangeTailAt(s, m1)
  }

  lemma MonthRangeAtSound(s: string, i: nat)
    requires MonthRangeAt(s, i).Some?
    ensures MonthRangeParse(s, i, MonthRangeAt(s, i).value)
  {
    RangeTailAtSound(s, MonDateAt(s, i).value);
    MonDateAtSound(s, i, MonDateAt(s, i).value);
  }

  /** The billing-period pattern has at most one parse at each position, and it is found. */
  lemma MonthRangeAtComplete(s: string, i: nat, r: RangePos)
    requires MonthRangeParse(s, i, r)
    ensures MonthRangeAt(s, i) == Some(r)
  {
    MonDateAtComplete(s, i, r.first);
    RangeTailAtComplete(s, r);
  }

  /** The first billing-period match in `t`: where it starts and its positions. */
  function FindInvoiceMonth(t: string): (r: Option<(nat, RangePos)>)
    ensures r.Some? ==> r.value.0 < r.value.1.second.d + 4 <= |t|
  {
    var at: nat -> Option<RangePos> := (p: nat) => MonthRangeAt(t, p);
    Search(t, at)
  }

  lemma FindInvoiceMonthSound(t: string)
    requires FindInvoiceMonth(t).Some?
    ensures MonthRangeParse(t, FindInvoiceMonth(t).value.0, FindInvoiceMonth(t).value.1)
  {
    var at: nat -> Option<RangePos> := (p: nat) => MonthRangeAt(t, p);
    assert FindInvoiceMonth(t) == Search(t, at);
    MonthRangeAtSound(t, FindInvoiceMonth(t).value.0);
  }

  /** No billing-period match starts before the one found: `re.search` keeps the leftmost. */
  lemma FindInvoiceMonthLeftmost(t: string, p: nat, m: RangePos)
    requires MonthRangeParse(t, p, m)
    ensures FindInvoiceMonth(t).Some? && FindInvoiceMonth(t).value.0 <= p
  {
    var at: nat -> Option<RangePos> := (q: nat) => MonthRangeAt(t, q);
    MonthRangeAtComplete(t, p, m);
    assert at(p).Some?;
    assert FindInvoiceMonth(t) == Search(t, at);
  }

  /** `extract_invoice_month`: the whole text of the first match (group 0), or None. */
  function ExtractInvoiceMonth(pages: Pages): (r: Option<string>)
    ensures r.None? <==> FindInvoiceMonth(FullText(pages)).None?
    ensures r.Some? ==> r.value == FullText(pages)[FindInvoiceMonth(FullText(pages)).value.0..FindInvoiceMonth(FullText(pages)).value.1.second.d + 4]
  {
    var t := FullText(pages);
    match FindInvoiceMonth(t)
    case None => None
    case Some((p, m)) => Some(t[p..m.second.d + 4])
  }

  /** The matched period starts with a month abbreviation and ends with a four-digit year. */
  lemma InvoiceMonthShape(pages: Pages)
    requires ExtractInvoiceMonth(pages).Some?
    ensures var r := ExtractInvoiceMonth(pages).value;
      && MonthAbbrevAt(r, 0)
      && |r| >= 4 && forall k | |r| - 4 <= k < |r| :: IsDigit(r[k])
  {
    var t := FullText(pages);
    FindInvoiceMonthSound(t);
    var f := FindInvoiceMonth(t).value;
    MonthRangeEnds(t, f.0, f.1);
  }

  /** Group 0 of a billing-period match begins with the month and ends with the year. */
  lemma MonthRangeEnds(t: string, p: nat, m: RangePos)
    requires MonthRangeParse(t, p, m) && m.second.d + 4 <= |t|
    ensures var r := t[p..m.second.d + 4];
      && MonthAbbrevAt(r, 0)
      && |r| >= 4 && forall k | |r| - 4 <= k < |r| :: IsDigit(r[k])
  {
    var r := t[p..m.second.d + 4];
    var d := m.second.d;
    assert p + 3 <= m.first.a < m.first.d < m.dash < m.start2 < d;
    assert r[0] == t[p] && r[1] == t[p + 1] && r[2] == t[p + 2];
    assert AllIn(t, d, d + 4, IsDigit);
    forall j | |r| - 4 <= j < |r| ensures IsDigit(r[j]) {
      assert r[j] == t[p + j];
    }
  }

  /** The same, with the month written as one of the twelve names. */
  lemma InvoiceMonthNamed(pages: Pages)
    requires ExtractInvoiceMonth(pages).Some?
    ensures exists k | 0 <= k < |MonthAbbrevs| :: LitAt(ExtractInvoiceMonth(pages).value, 0, MonthAbbrevs[k])
  {
    InvoiceMonthShape(pages);
    MonthAbbrevAtIff(ExtractInvoiceMonth(pages).value, 0);
  }

  // ---------------------------------------------------------------------------
  // SA360 override, invoice number: INVOICE\s+#?:?\s*(\d{5,})   (IGNORECASE)
  // ---------------------------------------------------------------------------

  /** Positions: spaces end at `a`, the optional `#` and `:` end at `b` and `c`, the digits are `g`. */
  datatype Sa360NumberPos = Sa360NumberPos(a: nat, b: nat, c: nat, g: Group)

  predicate Sa360NumberParse(s: string, i: nat, m: Sa360NumberPos) {
    && LitAtCI(s, i, "invoice")
    && i + 7 < m.a && AllIn(s, i + 7, m.a, IsSpace)
    && (m.b == m.a || (m.b == m.a + 1 && m.a < |s| && s[m.a] == '#'))
    && (m.c == m.b || (m.c == m.b + 1 && m.b < |s| && s[m.b] == ':'))
    && AllIn(s, m.c, m.g.lo, IsSpace)
    && AllIn(s, m.g.lo, m.g.hi, IsDigit) && m.g.hi - m.g.lo >= 5
  }

  /** The positions the greedy quantifiers reach after the `INVOICE` label at `i`. */
  function Sa360NumberPositions(s: string, i: nat): (m: Sa360NumberPos)
    requires i + 7 <= |s|
    ensures i + 7 <= m.a <= m.b <= m.c <= m.g.lo <= m.g.hi <= |s|
  {
    var a := Span(s, i + 7, IsSpace);
    var b := if a < |s| && s[a] == '#' then a + 1 else a;
    var c := if b < |s| && s[b] == ':' then b + 1 else b;
    var d := Span(s, c, IsSpace);
    Sa360NumberPos(a, b, c, Group(d, Span(s, d, IsDigit)))
  }

  /** The runs `Sa360NumberPositions` stops at cannot be extended. */
  lemma Sa360NumberPositionsRuns(s: string, i: nat)
    requires i + 7 <= |s|
    ensures var n := Sa360NumberPositions(s, i);
      && AllIn(s, i + 7, n.a, IsSpace) && AllIn(s, n.c, n.g.lo, IsSpace)
      && AllIn(s, n.g.lo, n.g.hi, IsDigit) && (n.g.hi < |s| ==> !IsDigit(s[n.g.hi]))
  {
    var n := Sa360NumberPositions(s, i);
    SpanRun(s, i + 7, IsSpace);
    SpanRun(s, n.c, IsSpace);
    SpanRun(s, n.g.lo, IsDigit);
  }

  /** The SA360 invoice-number match at `i`, as the greedy quantifiers take it. */
  function Sa360NumberAt(s: string, i: nat): (r: Option<Sa360NumberPos>)
    ensures r.Some? ==> i < r.value.g.lo && r.value.g.lo + 5 <= r.value.g.hi <= |s|
  {
    if !LitAtCI(s, i, "invoice") then None
    else
      var m := Sa360NumberPositions(s, i);
      if i + 7 < m.a && m.g.hi - m.g.lo >= 5 then Some(m) else None
  }

  /** What `Sa360NumberAt` finds is a parse whose digit run cannot be extended. */
  lemma Sa360NumberAtSound(s: string, i: nat)
    requires Sa360NumberAt(s, i).Some?
    ensures Sa360NumberParse(s, i, Sa360NumberAt(s, i).value)
    ensures var g := Sa360NumberAt(s, i).value.g; g.hi == |s| || !IsDigit(s[g.hi])
  {
    Sa360NumberPositionsRuns(s, i);
  }

  /** Every parse puts the digit group where the greedy positions put it. */
  lemma Sa360NumberGroupStart(s: string, i: nat, m: Sa360NumberPos)
    requires Sa360NumberParse(s, i, m)
    ensures Sa360NumberPositions(s, i).g.lo == m.g.lo
  {
    var a := Span(s, i + 7, IsSpace);
    RunWithin(s, i + 7, m.a, IsSpace);
    if m.a < a {
      Sa360NumberSplitRun(s, i, m);
    } else {
      Sa360NumberMarks(s, i, m);
      assert IsDigit(s[m.g.lo]);
      RunStops(s, m.c, m.g.lo, IsSpace);
    }
  }

  /**
   * A parse that leaves part of the space run after `INVOICE` to `\s*` takes
   * neither `#` nor `:`, and its digits start where that run ends.
   */
  lemma Sa360NumberSplitRun(s: string, i: nat, m: Sa360NumberPos)
    requires Sa360NumberParse(s, i, m) && m.a < Span(s, i + 7, IsSpace)
    ensures Sa360NumberPositions(s, i).g.lo == m.g.lo
  {
    SpanRun(s, i + 7, IsSpace);
    assert IsSpace(s[m.a]);
    assert m.b == m.a && m.c == m.a;
    assert IsDigit(s[m.g.lo]);
    RunStops(s, m.a, m.g.lo, IsSpace);
    SpanFromInside(s, i + 7, m.a, IsSpace);
  }

  /** A parse whose space run is maximal takes `#` and `:` exactly when they are there. */
  lemma Sa360NumberMarks(s: string, i: nat, m: Sa360NumberPos)
    requires Sa360NumberParse(s, i, m) && m.a == Span(s, i + 7, IsSpace)
    ensures m.b == Sa360NumberPositions(s, i).b && m.c == Sa360NumberPositions(s, i).c
  {
    var a := m.a;
    assert IsDigit(s[m.g.lo]);
    assert a < |s|;
    var b := if s[a] == '#' then a + 1 else a;
    assert m.b == b;
    var c := if b < |s| && s[b] == ':' then b + 1 else b;
    assert m.c == c;
  }

  /** Every parse is found, with the same digit group start and a digit run at least as long. */
  lemma Sa360NumberAtComplete(s: string, i: nat, m: Sa360NumberPos)
    requires Sa360NumberParse(s, i, m)
    ensures Sa360NumberAt(s, i).Some?
    ensures Sa360NumberAt(s, i).value.g.lo == m.g.lo && m.g.hi <= Sa360NumberAt(s, i).value.g.hi
  {
    var n := Sa360NumberPositions(s, i);
    Sa360NumberPositionsRuns(s, i);
    Sa360NumberGroupStart(s, i, m);
    RunWithin(s, m.g.lo, m.g.hi, IsDigit);
    assert n.g.hi - n.g.lo >= 5;
  }

  /** The first SA360 invoice-number match in `t`. */
  function FindSa360Number(t: string): (r: Option<(nat, Sa360NumberPos)>)
    ensures r.Some? ==> r.value.1.g.lo + 5 <= r.value.1.g.hi <= |t|
  {
    var at: nat -> Option<Sa360NumberPos> := (p: nat) => Sa360NumberAt(t, p);
    Search(t, at)
  }

  lemma FindSa360NumberSound(t: string)
    requires FindSa360Number(t).Some?
    ensures Sa360NumberParse(t, FindSa360Number(t).value.0, FindSa360Number(t).value.1)
    ensures var g := FindSa360Number(t).value.1.g; g.hi == |t| || !IsDigit(t[g.hi])
  {
    var at: nat -> Option<Sa360NumberPos> := (p: nat) => Sa360NumberAt(t, p);
    assert FindSa360Number(t) == Search(t, at);
    Sa360NumberAtSound(t, FindSa360Number(t).value.0);
  }

  /** No SA360 invoice-number match starts before the one found: `re.search` keeps the leftmost. */
  lemma FindSa360NumberLeftmost(t: string, p: nat, m: Sa360NumberPos)
    requires Sa360NumberParse(t, p, m)
    ensures FindSa360Number(t).Some? && FindSa360Number(t).value.0 <= p
  {
    var at: nat -> Option<Sa360NumberPos> := (q: nat) => Sa360NumberAt(t, q);
    Sa360NumberAtComplete(t, p, m);
    assert at(p).Some?;
    assert FindSa360Number(t) == Search(t, at);
  }

  // ---------------------------------------------------------------------------
  // SA360 override, month: Search Ads 360\s*[-–]\s*(\w+\s+\d{4})   (IGNORECASE)
  // ---------------------------------------------------------------------------

  /** Positions: the dash at `dash`, the group `s[g.lo..g.hi]` whose word ends at `w` and year starts at `y`. */
  datatype Sa360MonthPos = Sa360MonthPos(dash: nat, g: Group, w: nat, y: nat)

  predicate Sa360MonthParse(s: string, i: nat, m: Sa360MonthPos) {
    && LitAtCI(s, i, "search ads 360")
    && AllIn(s, i + 14, m.dash, IsSpace) && m.dash < |s| && IsDash(s[m.dash])
    && AllIn(s, m.dash + 1, m.g.lo, IsSpace)
    && m.g.lo < m.w && AllIn(s, m.g.lo, m.w, IsWord)
    && m.w < m.y && AllIn(s, m.w, m.y, IsSpace)
    && m.g.hi == m.y + 4 && AllIn(s, m.y, m.y + 4, IsDigit)
  }

  /** The positions the greedy quantifiers reach after the `Search Ads 360` label at `i`. */
  function Sa360MonthPositions(s: string, i: nat): (m: Sa360MonthPos)
    requires i + 14 <= |s|
    ensures i + 14 <= m.dash <= m.g.lo <= m.w <= m.y <= |s| && m.g.hi == m.y + 4
  {
    var x := Span(s, i + 14, IsSpace);
    var lo := if x < |s| then Span(s, x + 1, IsSpace) else x;
    var w := Span(s, lo, IsWord);
    var y := Span(s, w, IsSpace);
    Sa360MonthPos(x, Group(lo, y + 4), w, y)
  }

  /** The SA360 period match at `i`, as the greedy quantifiers take it. */
  function Sa360MonthAt(s: string, i: nat): (r: Option<Sa360MonthPos>)
    ensures r.Some? ==> i < r.value.g.lo < r.value.g.hi <= |s|
  {
    if !LitAtCI(s, i, "search ads 360") then None
    else
      var m := Sa360MonthPositions(s, i);
      if m.dash < |s| && IsDash(s[m.dash]) && m.g.lo < m.w < m.y && Year4At(s, m.y) then Some(m) else None
  }

  lemma Sa360MonthAtSound(s: string, i: nat)
    requires Sa360MonthAt(s, i).Some?
    ensures Sa360MonthParse(s, i, Sa360MonthAt(s, i).value)
  {
    var m := Sa360MonthAt(s, i).value;
    SpanRun(s, i + 14, IsSpace);
    SpanRun(s, m.dash + 1, IsSpace);
    SpanRun(s, m.g.lo, IsWord);
    SpanRun(s, m.w, IsSpace);
    assert Year4At(s, m.y);
  }

  /** Each run of a parse is the maximal one, so the greedy positions are the parse's. */
  lemma Sa360MonthPositionsOf(s: string, i: nat, m: Sa360MonthPos)
    requires Sa360MonthParse(s, i, m)
    ensures Sa360MonthPositions(s, i) == m
  {
    RunStops(s, i + 14, m.dash, IsSpace);
    RunStops(s, m.dash + 1, m.g.lo, IsSpace);
    RunStops(s, m.g.lo, m.w, IsWord);
    RunStops(s, m.w, m.y, IsSpace);
  }

  lemma Sa360MonthAtComplete(s: string, i: nat, m: Sa360MonthPos)
    requires Sa360MonthParse(s, i, m)
    ensures Sa360MonthAt(s, i) == Some(m)
  {
    Sa360MonthPositionsOf(s, i, m);
    assert Year4At(s, m.y);
  }

  /** The first SA360 period match in `t`. */
  function FindSa360Month(t: string): (r: Option<(nat, Sa360MonthPos)>)
    ensures r.Some? ==> r.value.1.g.lo < r.value.1.g.hi <= |t|
  {
    var at: nat -> Option<Sa360MonthPos> := (p: nat) => Sa360MonthAt(t, p);
    Search(t, at)
  }

  lemma FindSa360MonthSound(t: string)
    requires FindSa360Month(t).Some?
    ensures Sa360MonthParse(t, FindSa360Month(t).value.0, FindSa360Month(t).value.1)
  {
    var at: nat -> Option<Sa360MonthPos> := (p: nat) => Sa360MonthAt(t, p);
    assert FindSa360Month(t) == Search(t, at);
    Sa360MonthAtSound(t, FindSa360Month(t).value.0);
  }

  /** No SA360 period match starts before the one found: `re.search` keeps the leftmost. */
  lemma FindSa360MonthLeftmost(t: string, p: nat, m: Sa360MonthPos)
    requires Sa360MonthParse(t, p, m)
    ensures FindSa360Month(t).Some? && FindSa360Month(t).value.0 <= p
  {
    var at: nat -> Option<Sa360MonthPos> := (q: nat) => Sa360MonthAt(t, q);
    Sa360MonthAtComplete(t, p, m);
    assert at(p).Some?;
    assert FindSa360Month(t) == Search(t, at);
  }

  /** The header fields a document carries into its extractor. */
  datatype Header = Header(invoiceNum: Option<string>, invoiceMonth: Option<string>)

  /** The generic header: `extract_invoice_number` and `extract_invoice_month`. */
  function GenericHeader(pages: Pages): Header
  {
    Header(ExtractInvoiceNumber(pages), ExtractInvoiceMonth(pages))
  }

  /**
   * The header after the SA360 override of `extract_all`: for SA360 each field
   * is replaced by its SA360 pattern's group when that pattern matches; every
   * other family keeps the generic header.
   */
  function OverrideHeader(product: Product, pages: Pages): (h: Header)
    ensures product != SA360 ==> h == GenericHeader(pages)
    ensures product == SA360 ==>
      var t := FullText(pages);
      && h.invoiceNum == (if FindSa360Number(t).Some? then Some(Slice(t, FindSa360Number(t).value.1.g)) else ExtractInvoiceNumber(pages))
      && h.invoiceMonth == (if FindSa360Month(t).Some? then Some(Slice(t, FindSa360Month(t).value.1.g)) else ExtractInvoiceMonth(pages))
  {
    var h := GenericHeader(pages);
    if product != SA360 then h
    else
      var t := FullText(pages);
      var num := match FindSa360Number(t)
        case Some((_, m)) => Some(t[m.g.lo..m.g.hi])
        case None => h.invoiceNum;
      var month := match FindSa360Month(t)
        case Some((_, m)) => Some(t[m.g.lo..m.g.hi])
        case None => h.invoiceMonth;
      Header(num, month)
  }

  /** An overridden SA360 invoice number is a run of at least five digits. */
  lemma Sa360NumberIsDigits(t: string)
    requires FindSa360Number(t).Some?
    ensures var n := Slice(t, FindSa360Number(t).value.1.g);
      |n| >= 5 && forall k | 0 <= k < |n| :: IsDigit(n[k])
  {
    var f := FindSa360Number(t).value;
    FindSa360NumberSound(t);
    assert Sa360NumberParse(t, f.0, f.1);
    DigitGroup(t, f.0, f.1);
  }

  lemma DigitGroup(t: string, i: nat, m: Sa360NumberPos)
    requires Sa360NumberParse(t, i, m)
    ensures var n := Slice(t, m.g); |n| >= 5 && forall k | 0 <= k < |n| :: IsDigit(n[k])
  {
    SliceAllIn(t, m.g.lo, m.g.hi, IsDigit);
  }

  // ---------------------------------------------------------------------------
  // extractor_map / get_extractor
  // ---------------------------------------------------------------------------

  /** The six extractor functions of the table. */
  datatype Extractor = ExtractCm360 | ExtractDv360 | ExtractGoogleAds | ExtractGoogleWorkspace | ExtractLinkedin | ExtractSa360

  /** `extractor_map`, keyed on the product tag strings. */
  const ExtractorMap: map<string, Extractor> := map[
    "CM360" := ExtractCm360,
    "DV360" := ExtractDv360,
    "GOOGLE_ADS" := ExtractGoogleAds,
    "GOOGLE_WORKSPACE" := ExtractGoogleWorkspace,
    "LINKEDIN" := ExtractLinkedin,
    "SA360" := ExtractSa360
  ]

  /** `SuperHeroFlex.get_extractor`: `self.extractor_map.get(product_type)`. */
  function GetExtractor(name: string): Option<Extractor>
  {
    if name in ExtractorMap then Some(ExtractorMap[name]) else None
  }

  /** The extractor for a tag is the one of that family; the table has six entries. */
  function ExtractorFor(p: Product): Option<Extractor>
  {
    match p
    case CM360 => Some(ExtractCm360)
    case DV360 => Some(ExtractDv360)
    case GOOGLE_ADS => Some(ExtractGoogleAds)
    case GOOGLE_WORKSPACE => Some(ExtractGoogleWorkspace)
    case LINKEDIN => Some(ExtractLinkedin)
    case SA360 => Some(ExtractSa360)
    case UNKNOWN => None
  }

  /** A function is returned for exactly the six known tags, each for its own family; None for anything else */
  lemma GetExtractorKnownTags(name: string)
    ensures GetExtractor(name).Some? <==>
      name in {"CM360", "DV360", "GOOGLE_ADS", "GOOGLE_WORKSPACE", "LINKEDIN", "SA360"}
    ensures forall p: Product :: GetExtractor(ProductName(p)) == ExtractorFor(p)
    ensures GetExtractor("UNKNOWN").None?
  {
    assert ExtractorMap.Keys == {"CM360", "DV360", "GOOGLE_ADS", "GOOGLE_WORKSPACE", "LINKEDIN", "SA360"};
  }
}
