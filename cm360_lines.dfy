/**
 * CM360 line items written out from their fields: a detail line built from
 * eight field values, on which the line item pattern matches once, with
 * groups that give back exactly those values.
 *
 * Each level of the pattern has three parts: a function that writes the
 * text from that level to the end of the line, a `...Pieces` lemma naming
 * the characters the recogniser of that level looks at, and a lemma that the
 * recogniser finds the expected match from those characters.
 */
module Cm360Lines {
  import opened Options
  import opened Text
  import opened Scan
  import opened Patterns
  import opened Cm360
  import opened Numbers
  import opened LineParts

  /** The fields a CM360 line item prints, as text. */
  datatype ItemFields = ItemFields(
    advertiser: string, advertiserId: string, campaign: string, campaignId: string,
    code: string, price: string, qty: string, amount: string)

  predicate NotQuote(c: char) { c != '"' }

  /** Names without a double quote, ids of digits, a code of word characters and dashes, figures in their classes. */
  predicate WellFormed(f: ItemFields) {
    && f.advertiser != [] && AllIn(f.advertiser, 0, |f.advertiser|, NotQuote)
    && f.campaign != [] && AllIn(f.campaign, 0, |f.campaign|, NotQuote)
    && f.advertiserId != [] && AllIn(f.advertiserId, 0, |f.advertiserId|, IsDigit)
    && f.campaignId != [] && AllIn(f.campaignId, 0, |f.campaignId|, IsDigit)
    && f.code != [] && AllIn(f.code, 0, |f.code|, WordOrDash)
    && f.price != [] && AllIn(f.price, 0, |f.price|, DigitOrDot)
    && f.qty != [] && AllIn(f.qty, 0, |f.qty|, DigitOrComma)
    && f.amount != [] && AllIn(f.amount, 0, |f.amount|, DigitOrDot)
  }

  // ---------------------------------------------------------------------------
  // The line, from each level of the pattern to its end:
  //   Advertiser: "<advertiser>", ID: <advertiserId> - Campaign: "<campaign>",
  //   ID: <campaignId>, Billing Code: <code> - Fee: CPM <price> <qty> <amount>
  // ---------------------------------------------------------------------------

  function FigureText(f: ItemFields): string {
    f.price + (" " + (f.qty + (" " + f.amount)))
  }

  function FeeText(f: ItemFields): string {
    " " + ("-" + (" " + ("Fee:" + (" " + ("CPM" + (" " + FigureText(f)))))))
  }

  function CodeText(f: ItemFields): string {
    f.code + FeeText(f)
  }

  function BillingText(f: ItemFields): string {
    ", Billing Code:" + (" " + CodeText(f))
  }

  function CampaignTailText(f: ItemFields): string {
    "\", ID:" + (" " + (f.campaignId + BillingText(f)))
  }

  function CampaignText(f: ItemFields): string {
    f.campaign + CampaignTailText(f)
  }

  function OpenText(f: ItemFields): string {
    " " + ("-" + (" " + ("Campaign:" + (" " + ("\"" + CampaignText(f))))))
  }

  function AdvertiserTailText(f: ItemFields): string {
    "\", ID:" + (" " + (f.advertiserId + OpenText(f)))
  }

  function NameText(f: ItemFields): string {
    f.advertiser + AdvertiserTailText(f)
  }

  /** The detail line of one line item. */
  function ItemLine(f: ItemFields): string {
    "Advertiser: " + ("\"" + NameText(f))
  }

  // ---------------------------------------------------------------------------
  // Reading pieces off a line
  // ---------------------------------------------------------------------------

  lemma WordNotSpace(c: char)
    requires WordOrDash(c)
    ensures !IsSpace(c)
  {
  }

  // ---------------------------------------------------------------------------
  // The figures and the fee part
  // ---------------------------------------------------------------------------

  /** Where the three figures match after the space at `x`. */
  function FiguresOf(x: nat, f: ItemFields): (Group, Group, Group) {
    var p := x + 1;
    var q := p + |f.price| + 1;
    var a := q + |f.qty| + 1;
    (Group(p, q - 1), Group(q, a - 1), Group(a, a + |f.amount|))
  }

  /** The quantity and the amount, from `q` on. */
  lemma QuantityPieces(s: string, q: nat, f: ItemFields)
    requires WellFormed(f) && q <= |s| && s[q..] == f.qty + (" " + f.amount)
    ensures var a := q + |f.qty| + 1;
      && AllIn(s, q, a - 1, DigitOrComma) && a - 1 < |s| && s[a - 1] == ' '
      && AllIn(s, a, |s|, DigitOrDot) && a + |f.amount| == |s|
  {
    var a := q + |f.qty| + 1;
    FieldRun(s, q, f.qty, " " + f.amount, DigitOrComma);
    CharPiece(s, a - 1, " ", f.amount);
    FieldEnd(s, a, f.amount, DigitOrDot);
  }

  lemma FigurePieces(s: string, x: nat, f: ItemFields)
    requires WellFormed(f) && x < |s| && s[x] == ' ' && s[x + 1..] == FigureText(f)
    ensures var (p, q, a) := FiguresOf(x, f); FiguresParse(s, x, p, q, a)
  {
    var p := x + 1;
    var q := p + |f.price| + 1;
    FieldRun(s, p, f.price, " " + (f.qty + (" " + f.amount)), DigitOrDot);
    CharPiece(s, q - 1, " ", f.qty + (" " + f.amount));
    QuantityPieces(s, q, f);
  }

  lemma TextFigures(s: string, x: nat, f: ItemFields)
    requires WellFormed(f) && x < |s| && s[x] == ' ' && s[x + 1..] == FigureText(f)
    ensures FiguresAt(s, x) == Some(FiguresOf(x, f))
  {
    FigurePieces(s, x, f);
    var (p, q, a) := FiguresOf(x, f);
    FiguresAtComplete(s, x, p, q, a);
  }

  /** Where the fee part of a line whose fee text starts at `e` matches. */
  function FeeOf(e: nat, f: ItemFields): FeeTail {
    var (p, q, a) := FiguresOf(e + 11, f);
    FeeTail(e + 1, e + 3, e + 8, p, q, a)
  }

  /** The characters of " - Fee: CPM ", and the figures after them. */
  lemma FeePieces(s: string, e: nat, f: ItemFields)
    requires e <= |s| && s[e..] == FeeText(f)
    ensures e + 12 <= |s| && s[e] == ' ' && s[e + 1] == '-' && s[e + 2] == ' ' && LitAt(s, e + 3, "Fee:")
    ensures s[e + 7] == ' ' && LitAt(s, e + 8, "CPM") && s[e + 11] == ' ' && s[e + 12..] == FigureText(f)
  {
    CharPiece(s, e, " ", "-" + (" " + ("Fee:" + (" " + ("CPM" + (" " + FigureText(f)))))));
    CharPiece(s, e + 1, "-", " " + ("Fee:" + (" " + ("CPM" + (" " + FigureText(f))))));
    CharPiece(s, e + 2, " ", "Fee:" + (" " + ("CPM" + (" " + FigureText(f)))));
    Piece(s, e + 3, "Fee:", " " + ("CPM" + (" " + FigureText(f))));
    CharPiece(s, e + 7, " ", "CPM" + (" " + FigureText(f)));
    Piece(s, e + 8, "CPM", " " + FigureText(f));
    CharPiece(s, e + 11, " ", FigureText(f));
  }

  /** `\s*-\s*Fee:` over one space on each side of the dash. */
  lemma FeeSep(s: string, e: nat)
    requires e + 7 <= |s| && s[e] == ' ' && s[e + 1] == '-' && s[e + 2] == ' ' && LitAt(s, e + 3, "Fee:")
    ensures SepAt(s, e, "Fee:") == Some((e + 1, e + 3))
  {
    SepAtComplete(s, e, "Fee:", e + 1, e + 3);
  }

  /** `\s*CPM` over one space. */
  lemma FeeCpm(s: string, y: nat)
    requires y + 8 <= |s| && s[y + 4] == ' ' && LitAt(s, y + 5, "CPM")
    ensures CpmAt(s, y) == Some(y + 5)
  {
    RunStops(s, y + 4, y + 5, IsSpace);
  }

  lemma TextFee(s: string, e: nat, f: ItemFields)
    requires WellFormed(f) && e <= |s| && s[e..] == FeeText(f)
    ensures FeeTailAt(s, e) == Some(FeeOf(e, f))
  {
    FeePieces(s, e, f);
    FeeSep(s, e);
    FeeCpm(s, e + 3);
    TextFigures(s, e + 11, f);
  }

  // ---------------------------------------------------------------------------
  // The billing code and its label
  // ---------------------------------------------------------------------------

  /** The characters of the code and the fee text after it, in the form `CodeStep` and `TextFee` take them. */
  lemma CodePieces(s: string, b: nat, f: ItemFields)
    requires WellFormed(f) && b <= |s| && s[b..] == CodeText(f)
    ensures b < b + |f.code| < |s| && AllIn(s, b, b + |f.code|, WordOrDash) && !WordOrDash(s[b + |f.code|])
    ensures b + |f.code| <= |s| && s[b + |f.code|..] == FeeText(f)
  {
    FieldRun(s, b, f.code, FeeText(f), WordOrDash);
    CharPiece(s, b + |f.code|, " ", "-" + (" " + ("Fee:" + (" " + ("CPM" + (" " + FigureText(f)))))));
  }

  /** The code's backtracking stops at once where the fee part matches at its upper end. */
  lemma LastFee(s: string, lo: nat, hi: nat, fee: FeeTail)
    requires lo <= hi && FeeTailAt(s, hi) == Some(fee)
    ensures Last(lo, hi, FeeTails(s)) == Some((hi, fee))
  {
    LastAtEnd(lo, hi, FeeTails(s), fee);
  }

  /** A code run from `b` to `e` that something outside its class ends, before a fee part that matches. */
  lemma CodeStep(s: string, b: nat, e: nat, fee: FeeTail)
    requires b < e < |s| && AllIn(s, b, e, WordOrDash) && !WordOrDash(s[e])
    requires FeeTailAt(s, e) == Some(fee)
    ensures CodeAt(s, b) == Some((e, fee))
  {
    RunStops(s, b, e, WordOrDash);
    LastFee(s, b + 1, e, fee);
  }

  /** The greedy code run needs to give nothing back: the fee part matches where it stops. */
  lemma TextCode(s: string, b: nat, e: nat, f: ItemFields)
    requires WellFormed(f) && b <= |s| && s[b..] == CodeText(f) && e == b + |f.code|
    ensures CodeAt(s, b) == Some((e, FeeOf(e, f)))
  {
    CodePieces(s, b, f);
    TextFee(s, e, f);
    CodeStep(s, b, e, FeeOf(e, f));
  }

  lemma BillingPieces(s: string, h: nat, f: ItemFields)
    requires h <= |s| && s[h..] == BillingText(f)
    ensures h + 16 <= |s| && LitAt(s, h, ", Billing Code:") && s[h + 15] == ' ' && s[h + 16..] == CodeText(f)
  {
    Piece(s, h, ", Billing Code:", " " + CodeText(f));
    CharPiece(s, h + 15, " ", CodeText(f));
  }

  /** `, Billing Code:\s*` over one space, before a code that matches. */
  lemma BillingStep(s: string, h: nat, p: nat, fee: FeeTail)
    requires h + 16 <= |s| && LitAt(s, h, ", Billing Code:") && s[h + 15] == ' '
    requires CodeAt(s, h + 16) == Some((p, fee))
    ensures BillingAt(s, h) == Some((Group(h + 16, p), fee))
  {
    WordNotSpace(s[h + 16]);
    RunStops(s, h + 15, h + 16, IsSpace);
  }

  lemma TextBilling(s: string, h: nat, e: nat, f: ItemFields)
    requires WellFormed(f) && h <= |s| && s[h..] == BillingText(f) && e == h + 16 + |f.code|
    ensures BillingAt(s, h) == Some((Group(h + 16, e), FeeOf(e, f)))
  {
    BillingPieces(s, h, f);
    TextCode(s, h + 16, e, f);
    BillingStep(s, h, e, FeeOf(e, f));
  }

  // ---------------------------------------------------------------------------
  // The ids and the campaign tail
  // ---------------------------------------------------------------------------

  /** The characters of `", ID: <id>` and what follows the id, which does not start with a digit. */
  lemma IdPieces(s: string, e: nat, h: nat, id: string, rest: string)
    requires e <= |s| && s[e..] == "\", ID:" + (" " + (id + rest)) && h == e + 7 + |id|
    requires id != [] && AllIn(id, 0, |id|, IsDigit) && rest != [] && !IsDigit(rest[0])
    ensures e + 7 < h < |s| && LitAt(s, e, "\", ID:") && s[e + 6] == ' '
    ensures AllIn(s, e + 7, h, IsDigit) && !IsDigit(s[h]) && s[h..] == rest
  {
    Piece(s, e, "\", ID:", " " + (id + rest));
    CharPiece(s, e + 6, " ", id + rest);
    FieldRun(s, e + 7, id, rest, IsDigit);
    assert s[h] == s[h..][0];
  }

  /** `", ID:\s*(\d+)` over one space, with the digits stopped by something else. */
  lemma IdStep(s: string, e: nat, h: nat)
    requires e + 7 < h < |s| && LitAt(s, e, "\", ID:") && s[e + 6] == ' '
    requires AllIn(s, e + 7, h, IsDigit) && !IsDigit(s[h])
    ensures QuotedIdAt(s, e) == Some(Group(e + 7, h))
  {
    RunStops(s, e + 6, e + 7, IsSpace);
    RunStops(s, e + 7, h, IsDigit);
  }

  /** The campaign id, the billing code and the fee part of a line, from the quote closing the campaign name at `e`. */
  lemma TextCampaignTail(s: string, e: nat, h: nat, x: nat, f: ItemFields)
    requires WellFormed(f) && e <= |s| && s[e..] == CampaignTailText(f)
    requires h == e + 7 + |f.campaignId| && x == h + 16 + |f.code|
    ensures CampaignTailAt(s, e) == Some(CampaignTail(Group(e + 7, h), Group(h + 16, x), FeeOf(x, f)))
  {
    IdPieces(s, e, h, f.campaignId, BillingText(f));
    IdStep(s, e, h);
    TextBilling(s, h, x, f);
  }

  // ---------------------------------------------------------------------------
  // The lazy campaign name
  // ---------------------------------------------------------------------------

  /** No campaign tail starts on a character that is not a quote. */
  lemma NoCampaignTail(s: string, p: nat)
    requires p < |s| && s[p] != '"'
    ensures CampaignTailAt(s, p).None?
  {
    if LitAt(s, p, "\", ID:") {
      LitChar(s, p, "\", ID:", 0);
    }
  }

  /** No campaign tail starts inside a run of characters that are not quotes. */
  lemma NoCampaignTails(s: string, lo: nat, e: nat)
    requires e <= |s| && AllIn(s, lo, e, NotQuote)
    ensures forall p | lo <= p < e :: CampaignTailAt(s, p).None?
  {
    forall p | lo <= p < e ensures CampaignTailAt(s, p).None? {
      NoCampaignTail(s, p);
    }
  }

  /** The lazy campaign group after the opening quote at `q` ends at the first quote, where the campaign tail matches. */
  lemma CampaignStep(s: string, q: nat, e: nat, t: CampaignTail)
    requires q + 1 < e <= |s| && AllIn(s, q + 2, e, NotQuote) && CampaignTailAt(s, e) == Some(t)
    ensures CampaignAt(s, q + 1) == Some((e, t))
  {
    NoCampaignTails(s, q + 2, e);
    var r := CampaignAt(s, q + 1);
    assert r.Some?;
    assert r.value.0 == e;
  }

  /** The campaign name and its tail, after the opening quote at `q`. */
  lemma TextCampaign(s: string, q: nat, e: nat, h: nat, x: nat, f: ItemFields)
    requires WellFormed(f) && q + 1 <= |s| && s[q + 1..] == CampaignText(f)
    requires e == q + 1 + |f.campaign| && h == e + 7 + |f.campaignId| && x == h + 16 + |f.code|
    ensures CampaignAt(s, q + 1) == Some((e, CampaignTail(Group(e + 7, h), Group(h + 16, x), FeeOf(x, f))))
  {
    FieldRun(s, q + 1, f.campaign, CampaignTailText(f), NotQuote);
    AllInFrom(s, q + 1, q + 2, e, NotQuote);
    TextCampaignTail(s, e, h, x, f);
    CampaignStep(s, q, e, CampaignTail(Group(e + 7, h), Group(h + 16, x), FeeOf(x, f)));
  }

  // ---------------------------------------------------------------------------
  // The advertiser tail and the lazy advertiser name
  // ---------------------------------------------------------------------------

  /** The characters of ` - Campaign: "` after the advertiser id, and the campaign text after the quote at `q`. */
  lemma OpenPieces(s: string, h: nat, q: nat, f: ItemFields)
    requires h <= |s| && s[h..] == OpenText(f) && q == h + 13
    ensures q + 1 <= |s| && s[h] == ' ' && s[h + 1] == '-' && s[h + 2] == ' ' && LitAt(s, h + 3, "Campaign:")
    ensures s[h + 12] == ' ' && s[q] == '"' && s[q + 1..] == CampaignText(f)
  {
    CharPiece(s, h, " ", "-" + (" " + ("Campaign:" + (" " + ("\"" + CampaignText(f))))));
    CharPiece(s, h + 1, "-", " " + ("Campaign:" + (" " + ("\"" + CampaignText(f)))));
    CharPiece(s, h + 2, " ", "Campaign:" + (" " + ("\"" + CampaignText(f))));
    Piece(s, h + 3, "Campaign:", " " + ("\"" + CampaignText(f)));
    CharPiece(s, h + 12, " ", "\"" + CampaignText(f));
    CharPiece(s, q, "\"", CampaignText(f));
  }

  /** `\s*-\s*Campaign:\s*\n?"` over one space at each place. */
  lemma OpenStep(s: string, h: nat, q: nat)
    requires q == h + 13 && q + 1 <= |s| && s[h] == ' ' && s[h + 1] == '-' && s[h + 2] == ' ' && LitAt(s, h + 3, "Campaign:")
    requires s[h + 12] == ' ' && s[q] == '"'
    ensures CampaignOpenAt(s, h) == Some((h + 1, h + 3, q))
  {
    SepAtComplete(s, h, "Campaign:", h + 1, h + 3);
    RunStops(s, h + 12, q, IsSpace);
  }

  /** The advertiser tail from its parts: the id, the opening of the campaign, and the campaign. */
  lemma AdvertiserTailStep(s: string, e: nat, h: nat, q: nat, c: nat, t: CampaignTail)
    requires QuotedIdAt(s, e) == Some(Group(e + 7, h)) && CampaignOpenAt(s, h) == Some((h + 1, h + 3, q))
    requires CampaignAt(s, q + 1) == Some((c, t))
    ensures AdvertiserTailAt(s, e) == Some(AdvertiserTail(Group(e + 7, h), h + 1, h + 3, q, Group(q + 1, c), t))
  {
    AdvertiserTailWithStep(QuotedIdAt(s, e), (i: nat) => CampaignOpenAt(s, i), (i: nat) => CampaignAt(s, i), e + 7, h, q, c, t);
  }

  /** The three parts of an advertiser tail, each matching where the one before it ends, make the tail. */
  lemma AdvertiserTailWithStep(id: Option<Group>, open: nat -> Option<(nat, nat, nat)>, camp: nat -> Option<(nat, CampaignTail)>,
                               lo: nat, h: nat, q: nat, c: nat, t: CampaignTail)
    requires id == Some(Group(lo, h)) && open(h) == Some((h + 1, h + 3, q)) && camp(q + 1) == Some((c, t))
    ensures AdvertiserTailWith(id, open, camp) == Some(AdvertiserTail(Group(lo, h), h + 1, h + 3, q, Group(q + 1, c), t))
  {
  }

  /** The advertiser id, the campaign and its tail, from the quote closing the advertiser name at `e`. */
  lemma TextAdvertiserTail(s: string, e: nat, h: nat, q: nat, c: nat, k: nat, x: nat, f: ItemFields)
    requires WellFormed(f) && e <= |s| && s[e..] == AdvertiserTailText(f)
    requires h == e + 7 + |f.advertiserId| && q == h + 13 && c == q + 1 + |f.campaign|
    requires k == c + 7 + |f.campaignId| && x == k + 16 + |f.code|
    ensures AdvertiserTailAt(s, e) == Some(AdvertiserTail(Group(e + 7, h), h + 1, h + 3, q, Group(q + 1, c),
      CampaignTail(Group(c + 7, k), Group(k + 16, x), FeeOf(x, f))))
  {
    IdPieces(s, e, h, f.advertiserId, OpenText(f));
    IdStep(s, e, h);
    OpenPieces(s, h, q, f);
    OpenStep(s, h, q);
    TextCampaign(s, q, c, k, x, f);
    AdvertiserTailStep(s, e, h, q, c, CampaignTail(Group(c + 7, k), Group(k + 16, x), FeeOf(x, f)));
  }

  /** No advertiser tail starts on a character that is not a quote. */
  lemma NoAdvertiserTail(s: string, p: nat)
    requires p < |s| && s[p] != '"'
    ensures AdvertiserTailAt(s, p).None?
  {
    if LitAt(s, p, "\", ID:") {
      LitChar(s, p, "\", ID:", 0);
    }
  }

  lemma NoAdvertiserTails(s: string, lo: nat, e: nat)
    requires e <= |s| && AllIn(s, lo, e, NotQuote)
    ensures forall p | lo <= p < e :: AdvertiserTails(s)(p).None?
  {
    forall p | lo <= p < e ensures AdvertiserTails(s)(p).None? {
      NoAdvertiserTail(s, p);
    }
  }

  /** The lazy advertiser name after the quote at `q` ends at the first quote, where the advertiser tail matches. */
  lemma NameStep(s: string, q: nat, e: nat, t: AdvertiserTail)
    requires q + 1 < e <= |s| && AllIn(s, q + 2, e, NotQuote) && AdvertiserTailAt(s, e) == Some(t)
    ensures NameAt(s, q + 1) == Some((e, t))
  {
    NoAdvertiserTails(s, q + 2, e);
    NameEnd(s, q, e);
  }

  /** The lazy advertiser name ends at the first place after the opening quote where the advertiser tail matches. */
  lemma NameEnd(s: string, q: nat, e: nat)
    requires q + 1 < e <= |s| && AdvertiserTailAt(s, e).Some? && forall p | q + 2 <= p < e :: AdvertiserTails(s)(p).None?
    ensures NameAt(s, q + 1).Some? && NameAt(s, q + 1).value.0 == e
  {
    var r := NameAt(s, q + 1);
    assert r.Some?;
  }

  /** The advertiser name and everything after it, after the opening quote at `q`. */
  lemma TextName(s: string, q: nat, e: nat, h: nat, o: nat, c: nat, k: nat, x: nat, f: ItemFields)
    requires WellFormed(f) && q + 1 <= |s| && s[q + 1..] == NameText(f)
    requires e == q + 1 + |f.advertiser| && h == e + 7 + |f.advertiserId| && o == h + 13 && c == o + 1 + |f.campaign|
    requires k == c + 7 + |f.campaignId| && x == k + 16 + |f.code|
    ensures NameAt(s, q + 1) == Some((e, AdvertiserTail(Group(e + 7, h), h + 1, h + 3, o, Group(o + 1, c),
      CampaignTail(Group(c + 7, k), Group(k + 16, x), FeeOf(x, f)))))
  {
    FieldRun(s, q + 1, f.advertiser, AdvertiserTailText(f), NotQuote);
    AllInFrom(s, q + 1, q + 2, e, NotQuote);
    TextAdvertiserTail(s, e, h, o, c, k, x, f);
    NameStep(s, q, e, AdvertiserTail(Group(e + 7, h), h + 1, h + 3, o, Group(o + 1, c),
      CampaignTail(Group(c + 7, k), Group(k + 16, x), FeeOf(x, f))));
  }

  // ---------------------------------------------------------------------------
  // The whole line
  // ---------------------------------------------------------------------------

  /** `Advertiser: "?` takes the quote when the rest matches after it. */
  lemma ItemStep(s: string, p: nat, q: nat, e: nat, t: AdvertiserTail)
    requires q == p + 12 && LitAt(s, p, "Advertiser: ") && q < |s| && s[q] == '"' && NameAt(s, q + 1) == Some((e, t))
    ensures ItemAt(s, p) == Some(ItemPos(true, Group(q + 1, e), t))
  {
  }

  /** The characters of `Advertiser: "` at `p`, and the name text after them. */
  lemma ItemPieces(s: string, p: nat, q: nat, f: ItemFields)
    requires p <= |s| && s[p..] == ItemLine(f) && q == p + 12
    ensures LitAt(s, p, "Advertiser: ") && q < |s| && s[q] == '"' && q + 1 <= |s| && s[q + 1..] == NameText(f)
  {
    Piece(s, p, "Advertiser: ", "\"" + NameText(f));
    CharPiece(s, q, "\"", NameText(f));
  }

  lemma TextItem(s: string, p: nat, q: nat, e: nat, h: nat, o: nat, c: nat, k: nat, x: nat, f: ItemFields)
    requires WellFormed(f) && p <= |s| && s[p..] == ItemLine(f) && q == p + 12
    requires e == q + 1 + |f.advertiser| && h == e + 7 + |f.advertiserId| && o == h + 13 && c == o + 1 + |f.campaign|
    requires k == c + 7 + |f.campaignId| && x == k + 16 + |f.code|
    ensures ItemAt(s, p) == Some(ItemPos(true, Group(q + 1, e), AdvertiserTail(Group(e + 7, h), h + 1, h + 3, o, Group(o + 1, c),
      CampaignTail(Group(c + 7, k), Group(k + 16, x), FeeOf(x, f)))))
  {
    ItemPieces(s, p, q, f);
    TextName(s, q, e, h, o, c, k, x, f);
    ItemStep(s, p, q, e, AdvertiserTail(Group(e + 7, h), h + 1, h + 3, o, Group(o + 1, c),
      CampaignTail(Group(c + 7, k), Group(k + 16, x), FeeOf(x, f))));
  }

  /** Where the groups of the line item pattern match on `ItemLine(f)`. */
  function ItemOf(f: ItemFields): ItemPos {
    var e := 13 + |f.advertiser|;
    var h := e + 7 + |f.advertiserId|;
    var o := h + 13;
    var c := o + 1 + |f.campaign|;
    var k := c + 7 + |f.campaignId|;
    var x := k + 16 + |f.code|;
    ItemPos(true, Group(13, e), AdvertiserTail(Group(e + 7, h), h + 1, h + 3, o, Group(o + 1, c),
      CampaignTail(Group(c + 7, k), Group(k + 16, x), FeeOf(x, f))))
  }

  lemma ItemOfPositions(f: ItemFields, q: nat, e: nat, h: nat, o: nat, c: nat, k: nat, x: nat)
    requires q == 12 && e == q + 1 + |f.advertiser| && h == e + 7 + |f.advertiserId| && o == h + 13 && c == o + 1 + |f.campaign|
    requires k == c + 7 + |f.campaignId| && x == k + 16 + |f.code|
    ensures ItemOf(f) == ItemPos(true, Group(q + 1, e), AdvertiserTail(Group(e + 7, h), h + 1, h + 3, o, Group(o + 1, c),
      CampaignTail(Group(c + 7, k), Group(k + 16, x), FeeOf(x, f))))
  {
  }

  /** The line item pattern matches at the start of the line with the quoted name. */
  lemma LineMatch(f: ItemFields)
    requires WellFormed(f)
    ensures ItemAt(ItemLine(f), 0) == Some(ItemOf(f))
  {
    var q := 12;
    var e := q + 1 + |f.advertiser|;
    var h := e + 7 + |f.advertiserId|;
    var o := h + 13;
    var c := o + 1 + |f.campaign|;
    var k := c + 7 + |f.campaignId|;
    var x := k + 16 + |f.code|;
    TextItem(ItemLine(f), 0, q, e, h, o, c, k, x, f);
    ItemOfPositions(f, q, e, h, o, c, k, x);
  }

  /** The match runs to the end of the line. */
  lemma LineEnd(f: ItemFields)
    ensures ItemEnd(ItemOf(f)) == |ItemLine(f)|
  {
  }

  /** `re.finditer` on the line finds the one match, from its start to its end. */
  lemma LineItems(f: ItemFields)
    requires WellFormed(f)
    ensures FindItems(ItemLine(f)) == [(0, |ItemLine(f)|, ItemOf(f))]
  {
    var s, m := ItemLine(f), ItemOf(f);
    LineMatch(f);
    LineEnd(f);
    var r := FindItems(s);
    if r == [] {
      FindItemsNone(s);
      assert false;
    }
    FindItemsGaps(s, 0);
    assert r[0].0 == 0;
    if |r| > 1 {
      assert false;
    }
    assert r[0] == (0, |s|, m);
  }

  // ---------------------------------------------------------------------------
  // The captured text of each group
  // ---------------------------------------------------------------------------

  /** The figures after the space at `x`. */
  lemma FigureSlices(s: string, x: nat, f: ItemFields)
    requires x + 1 <= |s| && s[x + 1..] == FigureText(f)
    ensures var (p, q, a) := FiguresOf(x, f);
      && p.hi <= |s| && Slice(s, p) == f.price
      && q.hi <= |s| && Slice(s, q) == f.qty
      && a.hi <= |s| && Slice(s, a) == f.amount
  {
    var (p, q, a) := FiguresOf(x, f);
    FieldSlice(s, p.lo, p.hi, f.price, " " + (f.qty + (" " + f.amount)));
    CharPiece(s, p.hi, " ", f.qty + (" " + f.amount));
    FieldSlice(s, q.lo, q.hi, f.qty, " " + f.amount);
    CharPiece(s, q.hi, " ", f.amount);
    FieldSlice(s, a.lo, a.hi, f.amount, []);
  }

  /** The digits of `", ID: <id>` at `e`, and what follows them. */
  lemma IdSlice(s: string, e: nat, h: nat, id: string, rest: string)
    requires e <= |s| && s[e..] == "\", ID:" + (" " + (id + rest)) && h == e + 7 + |id|
    ensures h <= |s| && Slice(s, Group(e + 7, h)) == id && s[h..] == rest
  {
    Piece(s, e, "\", ID:", " " + (id + rest));
    CharPiece(s, e + 6, " ", id + rest);
    FieldSlice(s, e + 7, h, id, rest);
  }

  /** The campaign text after ` - Campaign: "`. */
  lemma OpenRest(s: string, h: nat, o: nat, f: ItemFields)
    requires h <= |s| && s[h..] == OpenText(f) && o == h + 13
    ensures o + 1 <= |s| && s[o + 1..] == CampaignText(f)
  {
    OpenPieces(s, h, o, f);
  }

  /** The billing code after `, Billing Code: `, and the figures after ` - Fee: CPM `. */
  lemma CodeSlice(s: string, k: nat, x: nat, f: ItemFields)
    requires k <= |s| && s[k..] == BillingText(f) && x == k + 16 + |f.code|
    ensures x <= |s| && Slice(s, Group(k + 16, x)) == f.code && x + 12 <= |s| && s[x + 12..] == FigureText(f)
  {
    BillingPieces(s, k, f);
    FieldSlice(s, k + 16, x, f.code, FeeText(f));
    FeePieces(s, x, f);
  }

  /** The campaign, its id and the billing code after the quote at `o`, and the figures. */
  lemma CampaignSlices(s: string, o: nat, c: nat, k: nat, x: nat, f: ItemFields)
    requires o + 1 <= |s| && s[o + 1..] == CampaignText(f)
    requires c == o + 1 + |f.campaign| && k == c + 7 + |f.campaignId| && x == k + 16 + |f.code|
    ensures c <= |s| && Slice(s, Group(o + 1, c)) == f.campaign
    ensures k <= |s| && Slice(s, Group(c + 7, k)) == f.campaignId
    ensures x <= |s| && Slice(s, Group(k + 16, x)) == f.code
    ensures x + 12 <= |s| && s[x + 12..] == FigureText(f)
  {
    FieldSlice(s, o + 1, c, f.campaign, CampaignTailText(f));
    IdSlice(s, c, k, f.campaignId, BillingText(f));
    CodeSlice(s, k, x, f);
  }

  /** The advertiser and its id after the quote at `q`, and the campaign text after the next opening quote. */
  lemma NameSlices(s: string, q: nat, e: nat, h: nat, o: nat, f: ItemFields)
    requires q + 1 <= |s| && s[q + 1..] == NameText(f)
    requires e == q + 1 + |f.advertiser| && h == e + 7 + |f.advertiserId| && o == h + 13
    ensures e <= |s| && Slice(s, Group(q + 1, e)) == f.advertiser
    ensures h <= |s| && Slice(s, Group(e + 7, h)) == f.advertiserId
    ensures o + 1 <= |s| && s[o + 1..] == CampaignText(f)
  {
    FieldSlice(s, q + 1, e, f.advertiser, AdvertiserTailText(f));
    IdSlice(s, e, h, f.advertiserId, OpenText(f));
    OpenRest(s, h, o, f);
  }

  /** The figures of the fee part whose text starts at `x`. */
  lemma FeeSlices(s: string, x: nat, f: ItemFields)
    requires x + 12 <= |s| && s[x + 12..] == FigureText(f)
    ensures var fee := FeeOf(x, f);
      && fee.price.lo <= fee.price.hi <= |s| && Slice(s, fee.price) == f.price
      && fee.qty.lo <= fee.qty.hi <= |s| && Slice(s, fee.qty) == f.qty
      && fee.amount.lo <= fee.amount.hi <= |s| && Slice(s, fee.amount) == f.amount
  {
    FigureSlices(s, x + 11, f);
  }

  /** Each group of the match on the line captures the field it was written from. */
  lemma LineSlices(f: ItemFields)
    ensures var s, m := ItemLine(f), ItemOf(f);
      && m.name.lo <= m.name.hi <= |s| && Slice(s, m.name) == f.advertiser
      && m.tail.advertiserId.lo <= m.tail.advertiserId.hi <= |s| && Slice(s, m.tail.advertiserId) == f.advertiserId
      && m.tail.campaign.lo <= m.tail.campaign.hi <= |s| && Slice(s, m.tail.campaign) == f.campaign
      && m.tail.rest.campaignId.lo <= m.tail.rest.campaignId.hi <= |s| && Slice(s, m.tail.rest.campaignId) == f.campaignId
      && m.tail.rest.code.lo <= m.tail.rest.code.hi <= |s| && Slice(s, m.tail.rest.code) == f.code
      && var fee := m.tail.rest.fee;
      && fee.price.lo <= fee.price.hi <= |s| && Slice(s, fee.price) == f.price
      && fee.qty.lo <= fee.qty.hi <= |s| && Slice(s, fee.qty) == f.qty
      && fee.amount.lo <= fee.amount.hi <= |s| && Slice(s, fee.amount) == f.amount
  {
    var s := ItemLine(f);
    var q := 12;
    var e := q + 1 + |f.advertiser|;
    var h := e + 7 + |f.advertiserId|;
    var o := h + 13;
    var c := o + 1 + |f.campaign|;
    var k := c + 7 + |f.campaignId|;
    var x := k + 16 + |f.code|;
    ItemPieces(s, 0, q, f);
    NameSlices(s, q, e, h, o, f);
    CampaignSlices(s, o, c, k, x, f);
    FeeSlices(s, x, f);
    ItemOfPositions(f, q, e, h, o, c, k, x);
  }

  // ---------------------------------------------------------------------------
  // The rows of a line
  // ---------------------------------------------------------------------------

  /** The row a well-formed line gives when its three figures convert: the fields, the names stripped. */
  function FieldsRow(f: ItemFields, h: Header): Cm360Row
    requires WellFormed(f) && FloatLiteral(f.price) && FloatLiteral(f.amount)
  {
    RemoveCommasKeepsClass(f.qty, IsDigit);
    Cm360Row(InvoiceType, h.invoiceNum, h.month, Strip(f.advertiser), f.advertiserId,
      Strip(f.campaign), f.campaignId, f.code, "CPM", "CPM",
      Number(ParseDecimal(f.price).value), Count(DigitsValue(RemoveCommas(f.qty))), Number(ParseDecimal(f.amount).value))
  }

  /** The conversion of a match whose groups capture the fields of `f`. */
  lemma RowOfFields(s: string, m: ItemPos, h: Header, f: ItemFields)
    requires WellFormed(f) && ItemShape(s, 0, m)
    requires Slice(s, m.name) == f.advertiser && Slice(s, m.tail.advertiserId) == f.advertiserId
    requires Slice(s, m.tail.campaign) == f.campaign && Slice(s, m.tail.rest.campaignId) == f.campaignId
    requires Slice(s, m.tail.rest.code) == f.code && Slice(s, m.tail.rest.fee.price) == f.price
    requires Slice(s, m.tail.rest.fee.qty) == f.qty && Slice(s, m.tail.rest.fee.amount) == f.amount
    ensures ItemRowOf(s, 0, m, h).Ok? <==> FloatLiteral(f.price) && RemoveCommas(f.qty) != [] && FloatLiteral(f.amount)
    ensures ItemRowOf(s, 0, m, h).Ok? ==> ItemRowOf(s, 0, m, h).value == FieldsRow(f, h)
  {
  }

  /** The loop over one element gives that element's value or raises its exception. */
  lemma TraverseOne<T, U>(xs: seq<T>, x: T, f: T -> Result<U>)
    requires xs == [x]
    ensures Traverse(xs, f).Ok? <==> f(x).Ok?
    ensures Traverse(xs, f).Ok? ==> Traverse(xs, f).value == [f(x).value]
    ensures Traverse(xs, f).Err? ==> Traverse(xs, f).error == f(x).error
  {
    assert xs == [] + [x];
    TraverseSnoc([], x, f);
  }

  /** The rows of a text with one match, at its start. */
  lemma RowsOfOne(s: string, m: ItemPos, h: Header)
    requires FindItems(s) == [(0, |s|, m)] && ItemAt(s, 0) == Some(m) && ItemShape(s, 0, m)
    ensures RowsOf(s, h).Ok? <==> ItemRowOf(s, 0, m, h).Ok?
    ensures RowsOf(s, h).Ok? ==> RowsOf(s, h).value == [ItemRowOf(s, 0, m, h).value]
    ensures RowsOf(s, h).Err? ==> RowsOf(s, h).error == "ValueError"
  {
    var x: (nat, nat, ItemPos) := (0, |s|, m);
    TraverseOne(FindItems(s), x, MatchRows(s, h));
    MatchRowsSpec(s, h, x);
  }

  /** The conversion of the match on the line. */
  lemma LineRow(f: ItemFields, h: Header)
    requires WellFormed(f)
    ensures var s, m := ItemLine(f), ItemOf(f);
      && ItemShape(s, 0, m)
      && (ItemRowOf(s, 0, m, h).Ok? <==> FloatLiteral(f.price) && RemoveCommas(f.qty) != [] && FloatLiteral(f.amount))
      && (ItemRowOf(s, 0, m, h).Ok? ==> ItemRowOf(s, 0, m, h).value == FieldsRow(f, h))
  {
    LineMatch(f);
    ItemShapeOf(ItemLine(f), 0);
    LineSlices(f);
    RowOfFields(ItemLine(f), ItemOf(f), h, f);
  }

  /**
   * The rows of a detail text that is one well-formed line item: one row
   * with the fields it was written from when the figures convert, and
   * `ValueError` otherwise.
   */
  lemma LineRows(f: ItemFields, h: Header)
    requires WellFormed(f)
    ensures RowsOf(ItemLine(f), h).Ok? <==> FloatLiteral(f.price) && RemoveCommas(f.qty) != [] && FloatLiteral(f.amount)
    ensures RowsOf(ItemLine(f), h).Ok? ==> RowsOf(ItemLine(f), h).value == [FieldsRow(f, h)]
    ensures RowsOf(ItemLine(f), h).Err? ==> RowsOf(ItemLine(f), h).error == "ValueError"
  {
    LineItems(f);
    LineMatch(f);
    LineRow(f, h);
    RowsOfOne(ItemLine(f), ItemOf(f), h);
  }

  // ---------------------------------------------------------------------------
  // A worked example
  // ---------------------------------------------------------------------------

  /** The fields of the line `Advertiser: "Acme Co", ID: 123456 - Campaign: "Fall Promo", ID: 654321, Billing Code: ABC-123 - Fee: CPM 5.25 10,000 52.50`. */
  const Example := ItemFields("Acme Co", "123456", "Fall Promo", "654321", "ABC-123", "5.25", "10,000", "52.50")

  lemma ExampleWellFormed()
    ensures WellFormed(Example)
  {
  }

  lemma ExamplePrice()
    ensures ParseDecimal("5.25") == Some(Decimal(525, 2)) && FloatLiteral("5.25")
  {
    ParseDecimalPointed("5", "25");
    assert "5" + "." + "25" == "5.25";
    assert "5" + "25" == "525";
    DigitsFive('5', '2', '5', '0', '0');
  }

  lemma ExampleAmount()
    ensures ParseDecimal("52.50") == Some(Decimal(5250, 2)) && FloatLiteral("52.50")
  {
    ParseDecimalPointed("52", "50");
    assert "52" + "." + "50" == "52.50";
    assert "52" + "50" == "5250";
    DigitsFive('5', '2', '5', '0', '0');
  }

  lemma ExampleCommas()
    ensures RemoveCommas("10,000") == "10000"
  {
    assert "10,000"[1..] == "0,000";
    assert "0,000"[1..] == ",000";
    assert ",000"[1..] == "000";
    assert "000"[1..] == "00";
    assert "00"[1..] == "0";
  }

  lemma ExampleQuantity()
    ensures RemoveCommas("10,000") == "10000" && AllDigits("10000") && DigitsValue("10000") == 10000
  {
    ExampleCommas();
    DigitsFive('1', '0', '0', '0', '0');
  }

  /** The row built from fields whose names need no stripping and whose figures read as given. */
  lemma FieldsRowOf(f: ItemFields, h: Header, price: Decimal, qty: nat, amount: Decimal)
    requires WellFormed(f) && Stripped(f.advertiser) && Stripped(f.campaign)
    requires ParseDecimal(f.price) == Some(price) && FloatLiteral(f.price)
    requires ParseDecimal(f.amount) == Some(amount) && FloatLiteral(f.amount)
    requires AllDigits(RemoveCommas(f.qty)) && DigitsValue(RemoveCommas(f.qty)) == qty
    ensures FieldsRow(f, h) == Cm360Row(InvoiceType, h.invoiceNum, h.month,
      f.advertiser, f.advertiserId, f.campaign, f.campaignId, f.code, "CPM", "CPM",
      Number(price), Count(qty), Number(amount))
  {
    StripNoop(f.advertiser);
    StripNoop(f.campaign);
  }

  lemma ExampleNames()
    ensures Example.advertiser == "Acme Co" && Stripped("Acme Co")
    ensures Example.campaign == "Fall Promo" && Stripped("Fall Promo")
  {
  }

  /** The row built from the example's fields. */
  lemma ExampleRow(h: Header)
    ensures WellFormed(Example) && FloatLiteral(Example.price) && FloatLiteral(Example.amount)
    ensures FieldsRow(Example, h) == Cm360Row(InvoiceType, h.invoiceNum, h.month,
      "Acme Co", "123456", "Fall Promo", "654321", "ABC-123", "CPM", "CPM",
      Number(Decimal(525, 2)), Count(10000), Number(Decimal(5250, 2)))
  {
    ExampleWellFormed();
    ExamplePrice();
    ExampleAmount();
    ExampleQuantity();
    ExampleNames();
    FieldsRowOf(Example, h, Decimal(525, 2), 10000, Decimal(5250, 2));
  }

  /** The example line gives one row: the names and codes as written, 5.25 and 52.50 as decimals, 10,000 as 10000. */
  lemma ExampleRows(h: Header)
    ensures RowsOf(ItemLine(Example), h) == Ok([Cm360Row(InvoiceType, h.invoiceNum, h.month,
      "Acme Co", "123456", "Fall Promo", "654321", "ABC-123", "CPM", "CPM",
      Number(Decimal(525, 2)), Count(10000), Number(Decimal(5250, 2)))])
  {
    ExampleRow(h);
    ExampleQuantity();
    LineRows(Example, h);
  }
}
