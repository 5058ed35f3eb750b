/**
 * DV360 line items written out from their fields: a merged detail block
 * built from eight field values, in which `pattern.search` finds the line
 * item at the start, with groups that give back exactly those values.
 *
 * As for CM360, each level of the pattern has a function that writes the
 * text from that level to the end of the block, a `...Pieces` lemma naming
 * the characters the recogniser of that level looks at, and a lemma that the
 * recogniser finds the expected match from those characters.
 */
module Dv360Lines {
  import opened Options
  import opened Text
  import opened Scan
  import opened Patterns
  import opened Numbers
  import opened Dv360
  import opened LineParts

  /** The fields a DV360 line item prints, as text. */
  datatype ItemFields = ItemFields(
    fee: string, partner: string, partnerId: string, advertiser: string,
    advertiserId: string, qty: string, uom: string, amount: string)

  /** A character of a fee type or a partner name: no newline and no dash, so no separator starts inside. */
  predicate DashFree(c: char) { c != '\n' && c != '-' }

  /** A character of an advertiser name: no newline and no colon, so no `ID:` starts inside. */
  predicate ColonFree(c: char) { c != '\n' && c != ':' }

  /** Names on one line and stripped, digit ids, figures and a unit in their classes. */
  predicate WellFormed(f: ItemFields) {
    && f.fee != [] && AllIn(f.fee, 0, |f.fee|, DashFree) && Stripped(f.fee)
    && f.partner != [] && AllIn(f.partner, 0, |f.partner|, DashFree) && Stripped(f.partner)
    && f.partnerId != [] && AllIn(f.partnerId, 0, |f.partnerId|, IsDigit)
    && f.advertiser != [] && AllIn(f.advertiser, 0, |f.advertiser|, ColonFree) && Stripped(f.advertiser)
    && f.advertiserId != [] && AllIn(f.advertiserId, 0, |f.advertiserId|, IsDigit)
    && f.qty != [] && AllIn(f.qty, 0, |f.qty|, QuantityChar)
    && f.uom != [] && AllIn(f.uom, 0, |f.uom|, IsWord)
    && f.amount != [] && AllIn(f.amount, 0, |f.amount|, FigureChar)
  }

  // ---------------------------------------------------------------------------
  // The block, from each level of the pattern to its end:
  //   <fee> - Partner: <partner> - Constellation ID: <partnerId>
  //   - Advertiser: <advertiser> ID: <advertiserId> <qty> <uom> <amount>
  // ---------------------------------------------------------------------------

  function UnitText(f: ItemFields): string {
    " " + (f.uom + (" " + f.amount))
  }

  function CountsText(f: ItemFields): string {
    " " + (f.qty + UnitText(f))
  }

  function FiguresText(f: ItemFields): string {
    " " + ("ID:" + (" " + (f.advertiserId + CountsText(f))))
  }

  function AdvertiserText(f: ItemFields): string {
    f.advertiser + FiguresText(f)
  }

  function AdvertiserOpenText(f: ItemFields): string {
    " " + ("-" + (" " + ("Advertiser:" + (" " + AdvertiserText(f)))))
  }

  function PartnerTailText(f: ItemFields): string {
    " " + ("-" + (" " + ("Constellation ID:" + (" " + (f.partnerId + AdvertiserOpenText(f))))))
  }

  function PartnerText(f: ItemFields): string {
    f.partner + PartnerTailText(f)
  }

  function FeeTailText(f: ItemFields): string {
    " " + ("-" + (" " + ("Partner:" + (" " + PartnerText(f)))))
  }

  /** The merged block of one line item. */
  function ItemLine(f: ItemFields): string {
    f.fee + FeeTailText(f)
  }

  // ---------------------------------------------------------------------------
  // The counts and the figures
  // ---------------------------------------------------------------------------

  /** Where the quantity, the unit and the amount match after the space at `d`. */
  function CountsOf(d: nat, f: ItemFields): (Group, Group, Group) {
    var q := d + 1 + |f.qty|;
    var u := q + 1 + |f.uom|;
    (Group(d + 1, q), Group(q + 1, u), Group(u + 1, u + 1 + |f.amount|))
  }

  /** The unit and the amount, after the space at `q`. */
  lemma UnitPieces(s: string, q: nat, f: ItemFields)
    requires WellFormed(f) && q <= |s| && s[q..] == UnitText(f)
    ensures var u := q + 1 + |f.uom|;
      && q < |s| && s[q] == ' ' && AllIn(s, q + 1, u, IsWord) && u < |s| && s[u] == ' '
      && AllIn(s, u + 1, |s|, FigureChar) && u + 1 + |f.amount| == |s|
  {
    var u := q + 1 + |f.uom|;
    CharPiece(s, q, " ", f.uom + (" " + f.amount));
    FieldRun(s, q + 1, f.uom, " " + f.amount, IsWord);
    CharPiece(s, u, " ", f.amount);
    FieldEnd(s, u + 1, f.amount, FigureChar);
  }

  lemma CountsPieces(s: string, d: nat, f: ItemFields)
    requires WellFormed(f) && d <= |s| && s[d..] == CountsText(f)
    ensures var q := d + 1 + |f.qty|;
      && d < |s| && s[d] == ' ' && AllIn(s, d + 1, q, QuantityChar) && q <= |s| && s[q..] == UnitText(f)
  {
    CharPiece(s, d, " ", f.qty + UnitText(f));
    FieldRun(s, d + 1, f.qty, UnitText(f), QuantityChar);
  }

  /** The unit and the amount, each run stopped by what follows it; the amount runs to the end. */
  lemma UnitStep(s: string, q: nat, u: nat)
    requires q + 1 < u && u + 1 < |s| && s[q] == ' '
    requires AllIn(s, q + 1, u, IsWord) && s[u] == ' ' && AllIn(s, u + 1, |s|, FigureChar)
    ensures UnitAt(s, q) == Some((Group(q + 1, u), Group(u + 1, |s|)))
  {
    assert IsWord(s[q + 1]) && FigureChar(s[u + 1]);
    RunAtComplete(s, q, q + 1, IsSpace);
    RunAtComplete(s, q + 1, u, IsWord);
    RunAtComplete(s, u, u + 1, IsSpace);
    RunAtComplete(s, u + 1, |s|, FigureChar);
  }

  /** The quantity, stopped by the space before the unit. */
  lemma CountsStep(s: string, d: nat, q: nat, u: nat, f: ItemFields)
    requires q == d + 1 + |f.qty| && u == q + 1 + |f.uom| && u + 1 + |f.amount| == |s| && f.qty != []
    requires d < |s| && s[d] == ' ' && AllIn(s, d + 1, q, QuantityChar) && q < |s| && s[q] == ' '
    requires UnitAt(s, q) == Some((Group(q + 1, u), Group(u + 1, |s|)))
    ensures CountsAt(s, d) == Some(CountsOf(d, f))
  {
    assert QuantityChar(s[d + 1]);
    RunAtComplete(s, d, d + 1, IsSpace);
    RunAtComplete(s, d + 1, q, QuantityChar);
  }

  lemma TextUnit(s: string, q: nat, u: nat, f: ItemFields)
    requires WellFormed(f) && q <= |s| && s[q..] == UnitText(f) && u == q + 1 + |f.uom|
    ensures u + 1 + |f.amount| == |s| && UnitAt(s, q) == Some((Group(q + 1, u), Group(u + 1, |s|)))
  {
    UnitPieces(s, q, f);
    UnitStep(s, q, u);
  }

  lemma TextCounts(s: string, d: nat, f: ItemFields)
    requires WellFormed(f) && d <= |s| && s[d..] == CountsText(f)
    ensures CountsAt(s, d) == Some(CountsOf(d, f))
  {
    var q := d + 1 + |f.qty|;
    var u := q + 1 + |f.uom|;
    CountsPieces(s, d, f);
    TextUnit(s, q, u, f);
    UnitPieces(s, q, f);
    CountsStep(s, d, q, u, f);
  }

  /** Where the figures match after the advertiser's name ends at `e`. */
  function FiguresOf(e: nat, f: ItemFields): Figures {
    var d := e + 5 + |f.advertiserId|;
    var c := CountsOf(d, f);
    Figures(Group(e + 5, d), c.0, c.1, c.2)
  }

  lemma FiguresPieces(s: string, e: nat, f: ItemFields)
    requires WellFormed(f) && e <= |s| && s[e..] == FiguresText(f)
    ensures var d := e + 5 + |f.advertiserId|;
      && e + 5 < |s| && IsSpace(s[e]) && !IsSpace(s[e + 1]) && LitAt(s, e + 1, "ID:") && IsSpace(s[e + 4]) && !IsSpace(s[e + 5])
      && AllIn(s, e + 5, d, IsDigit) && d <= |s| && s[d..] == CountsText(f)
  {
    CharPiece(s, e, " ", "ID:" + (" " + (f.advertiserId + CountsText(f))));
    Piece(s, e + 1, "ID:", " " + (f.advertiserId + CountsText(f)));
    LitChar(s, e + 1, "ID:", 0);
    CharPiece(s, e + 4, " ", f.advertiserId + CountsText(f));
    FieldRun(s, e + 5, f.advertiserId, CountsText(f), IsDigit);
    assert IsDigit(s[e + 5]);
  }

  /** `\s*ID:\s*` over one space on each side, then the id stopped by the space before the counts. */
  lemma IdStep(s: string, e: nat, d: nat)
    requires e + 5 < d < |s| && IsSpace(s[e]) && !IsSpace(s[e + 1]) && LitAt(s, e + 1, "ID:") && IsSpace(s[e + 4]) && !IsSpace(s[e + 5])
    requires AllIn(s, e + 5, d, IsDigit) && !IsDigit(s[d])
    ensures IdAt(s, e) == Some(Group(e + 5, d))
  {
    OneSpace(s, e);
    OneSpace(s, e + 4);
    RunAtComplete(s, e + 5, d, IsDigit);
  }

  lemma FiguresStep(s: string, e: nat, d: nat, f: ItemFields)
    requires d == e + 5 + |f.advertiserId|
    requires IdAt(s, e) == Some(Group(e + 5, d)) && CountsAt(s, d) == Some(CountsOf(d, f))
    ensures FiguresAt(s, e) == Some(FiguresOf(e, f))
  {
    FiguresOfAt(e, d, f);
    var c := CountsAt(s, d).value;
    assert FiguresAt(s, e) == Some(Figures(Group(e + 5, d), c.0, c.1, c.2));
  }

  /** `FiguresOf` from the position it computes. */
  lemma FiguresOfAt(e: nat, d: nat, f: ItemFields)
    requires d == e + 5 + |f.advertiserId|
    ensures FiguresOf(e, f) == Figures(Group(e + 5, d), CountsOf(d, f).0, CountsOf(d, f).1, CountsOf(d, f).2)
  {
  }

  lemma TextFigures(s: string, e: nat, f: ItemFields)
    requires WellFormed(f) && e <= |s| && s[e..] == FiguresText(f)
    ensures FiguresAt(s, e) == Some(FiguresOf(e, f))
  {
    var d := e + 5 + |f.advertiserId|;
    FiguresPieces(s, e, f);
    TextCounts(s, d, f);
    CountsPieces(s, d, f);
    IdStep(s, e, d);
    FiguresStep(s, e, d, f);
  }

  // ---------------------------------------------------------------------------
  // The lazy advertiser name and the `\s*` before it
  // ---------------------------------------------------------------------------

  /** The advertiser's name from `a` to `e`, and the figures text after it. */
  lemma AdvertiserPieces(s: string, a: nat, e: nat, f: ItemFields)
    requires f.advertiser != [] && AllIn(f.advertiser, 0, |f.advertiser|, ColonFree) && Stripped(f.advertiser)
    requires a <= |s| && s[a..] == AdvertiserText(f) && e == a + |f.advertiser|
    ensures a < e <= |s| && AllIn(s, a, e, ColonFree) && !IsSpace(s[a]) && !IsSpace(s[e - 1]) && s[e..] == FiguresText(f)
  {
    NameRun(s, a, f.advertiser, FiguresText(f), ColonFree);
  }

  /**
   * No `\s*ID:` starts inside the advertiser's name: the whitespace run from
   * `p` stops before the name's last character, and from there on no colon
   * comes two characters later.
   */
  lemma NoFigures(s: string, a: nat, e: nat, p: nat)
    requires a < p < e < |s| && AllIn(s, a, e, ColonFree) && !IsSpace(s[e - 1]) && IsSpace(s[e])
    ensures FiguresAt(s, p).None?
  {
    NoIdLit(s, a, e, p);
    assert IdAt(s, p).None?;
  }

  lemma NoIdLit(s: string, a: nat, e: nat, p: nat)
    requires a < p < e < |s| && AllIn(s, a, e, ColonFree) && !IsSpace(s[e - 1]) && IsSpace(s[e])
    ensures !LitAt(s, Span(s, p, IsSpace), "ID:")
  {
    SpanRun(s, p, IsSpace);
    var x := Span(s, p, IsSpace);
    if LitAt(s, x, "ID:") {
      LitChar(s, x, "ID:", 1);
      LitChar(s, x, "ID:", 2);
    }
  }

  lemma NoFiguresIn(s: string, a: nat, e: nat)
    requires a < e < |s| && AllIn(s, a, e, ColonFree) && !IsSpace(s[e - 1]) && IsSpace(s[e])
    ensures forall p | a < p < e :: FiguresAt(s, p).None?
  {
    forall p | a < p < e ensures FiguresAt(s, p).None? {
      NoFigures(s, a, e, p);
    }
  }

  /** The lazy advertiser group from `a` ends at the first place where the figures match. */
  lemma AdvertiserNameStep(s: string, a: nat, e: nat, v: Figures)
    requires a < e <= |s| && AllIn(s, a, e, NotNewline) && FiguresAt(s, e) == Some(v)
    requires forall p | a < p < e :: FiguresAt(s, p).None?
    ensures AdvertiserNameAt(s, a) == Some((e, v))
  {
    RunWithin(s, a, e, NotNewline);
    var r := AdvertiserNameAt(s, a);
    assert r.Some?;
    assert r.value.0 == e;
  }

  lemma TextAdvertiserName(s: string, a: nat, e: nat, f: ItemFields)
    requires WellFormed(f) && a <= |s| && s[a..] == AdvertiserText(f) && e == a + |f.advertiser|
    ensures AdvertiserNameAt(s, a) == Some((e, FiguresOf(e, f)))
  {
    AdvertiserPieces(s, a, e, f);
    FiguresPieces(s, e, f);
    NoFiguresIn(s, a, e);
    TextFigures(s, e, f);
    AdvertiserNameStep(s, a, e, FiguresOf(e, f));
  }

  /** `\s*` over the one space at `i` before a name that starts with no whitespace, then the name. */
  lemma AdvertiserStep(s: string, i: nat, e: nat, v: Figures)
    requires i + 1 < |s| && IsSpace(s[i]) && !IsSpace(s[i + 1]) && AdvertiserNameAt(s, i + 1) == Some((e, v))
    ensures AdvertiserAt(s, i) == Some((Group(i + 1, e), v))
  {
    OneSpace(s, i);
    assert AdvertiserNamesFrom(s)(i + 1) == Some((e, v));
    LastAtEnd(i, i + 1, AdvertiserNamesFrom(s), (e, v));
  }

  lemma TextAdvertiser(s: string, i: nat, e: nat, f: ItemFields)
    requires WellFormed(f) && i <= |s| && s[i..] == " " + AdvertiserText(f) && e == i + 1 + |f.advertiser|
    ensures AdvertiserAt(s, i) == Some((Group(i + 1, e), FiguresOf(e, f)))
  {
    CharPiece(s, i, " ", AdvertiserText(f));
    AdvertiserPieces(s, i + 1, e, f);
    TextAdvertiserName(s, i + 1, e, f);
    AdvertiserStep(s, i, e, FiguresOf(e, f));
  }

  // ---------------------------------------------------------------------------
  // The partner tail: the partner id, `- Advertiser:` and the advertiser
  // ---------------------------------------------------------------------------

  /** Where the partner tail matches after the partner's name ends at `e`. */
  function PartnerTailOf(e: nat, f: ItemFields): PartnerTail {
    var z := e + 21 + |f.partnerId|;
    var v := z + 15 + |f.advertiser|;
    PartnerTail(Group(e + 21, z), Group(z + 15, v), FiguresOf(v, f))
  }

  /** The characters of ` - Advertiser: ` at `z`, and the advertiser text after them. */
  lemma AdvertiserOpenPieces(s: string, z: nat, f: ItemFields)
    requires z <= |s| && s[z..] == AdvertiserOpenText(f)
    ensures z + 14 <= |s| && s[z] == ' ' && s[z + 1] == '-' && s[z + 2] == ' ' && LitAt(s, z + 3, "Advertiser:")
    ensures s[z + 14..] == " " + AdvertiserText(f)
  {
    CharPiece(s, z, " ", "-" + (" " + ("Advertiser:" + (" " + AdvertiserText(f)))));
    CharPiece(s, z + 1, "-", " " + ("Advertiser:" + (" " + AdvertiserText(f))));
    CharPiece(s, z + 2, " ", "Advertiser:" + (" " + AdvertiserText(f)));
    Piece(s, z + 3, "Advertiser:", " " + AdvertiserText(f));
  }

  /** The characters of ` - Constellation ID: ` at `e`, the partner id, and what follows it. */
  lemma PartnerTailPieces(s: string, e: nat, f: ItemFields)
    requires WellFormed(f) && e <= |s| && s[e..] == PartnerTailText(f)
    ensures var z := e + 21 + |f.partnerId|;
      && s[e] == ' ' && s[e + 1] == '-' && s[e + 2] == ' ' && LitAt(s, e + 3, "Constellation ID:") && s[e + 20] == ' '
      && AllIn(s, e + 21, z, IsDigit) && z <= |s| && s[z..] == AdvertiserOpenText(f)
  {
    var rest := f.partnerId + AdvertiserOpenText(f);
    CharPiece(s, e, " ", "-" + (" " + ("Constellation ID:" + (" " + rest))));
    CharPiece(s, e + 1, "-", " " + ("Constellation ID:" + (" " + rest)));
    CharPiece(s, e + 2, " ", "Constellation ID:" + (" " + rest));
    Piece(s, e + 3, "Constellation ID:", " " + rest);
    CharPiece(s, e + 20, " ", rest);
    FieldRun(s, e + 21, f.partnerId, AdvertiserOpenText(f), IsDigit);
  }

  /** ` - <lit>` over one space on each side of the dash. */
  lemma OneSep(s: string, e: nat, lit: string)
    requires e + 3 <= |s| && s[e] == ' ' && s[e + 1] == '-' && s[e + 2] == ' ' && LitAt(s, e + 3, lit)
    requires lit != [] && !IsSpace(lit[0])
    ensures SepAt(s, e, lit) == Some((e + 1, e + 3))
  {
    SepAtComplete(s, e, lit, e + 1, e + 3);
  }

  /** `\s*-\s*Constellation ID:\s*(?P<partner_id>\d+)` over single spaces, the id stopped by the space after it. */
  lemma ConstellationStep(s: string, e: nat, z: nat)
    requires e + 21 < z < |s| && s[e] == ' ' && s[e + 1] == '-' && s[e + 2] == ' ' && LitAt(s, e + 3, "Constellation ID:")
    requires s[e + 20] == ' ' && AllIn(s, e + 21, z, IsDigit) && s[z] == ' '
    ensures ConstellationIdAt(s, e) == Some(Group(e + 21, z))
  {
    OneSep(s, e, "Constellation ID:");
    assert IsDigit(s[e + 21]);
    OneSpace(s, e + 20);
    RunAtComplete(s, e + 21, z, IsDigit);
  }

  /** ` - Constellation ID: <partner id>` at `e`, and the text after the id. */
  lemma TextConstellation(s: string, e: nat, z: nat, f: ItemFields)
    requires WellFormed(f) && e <= |s| && s[e..] == PartnerTailText(f) && z == e + 21 + |f.partnerId|
    ensures ConstellationIdAt(s, e) == Some(Group(e + 21, z)) && z <= |s| && s[z..] == AdvertiserOpenText(f)
  {
    PartnerTailPieces(s, e, f);
    AdvertiserOpenPieces(s, z, f);
    ConstellationStep(s, e, z);
  }

  lemma AdvertiserOpenStep(s: string, z: nat, adv: Group, v: Figures)
    requires SepAt(s, z, "Advertiser:") == Some((z + 1, z + 3)) && AdvertiserAt(s, z + 14) == Some((adv, v))
    ensures AdvertiserOpenAt(s, z) == Some((adv, v))
  {
  }

  /** ` - Advertiser: ` at `z`, then the advertiser and the figures. */
  lemma TextAdvertiserOpen(s: string, z: nat, v: nat, f: ItemFields)
    requires WellFormed(f) && z <= |s| && s[z..] == AdvertiserOpenText(f) && v == z + 15 + |f.advertiser|
    ensures AdvertiserOpenAt(s, z) == Some((Group(z + 15, v), FiguresOf(v, f)))
  {
    AdvertiserOpenPieces(s, z, f);
    OneSep(s, z, "Advertiser:");
    TextAdvertiser(s, z + 14, v, f);
    AdvertiserOpenStep(s, z, Group(z + 15, v), FiguresOf(v, f));
  }

  /** The partner id, then the advertiser, each where the block written from `f` puts it. */
  lemma PartnerTailStep(s: string, e: nat, z: nat, v: nat, f: ItemFields)
    requires z == e + 21 + |f.partnerId| && v == z + 15 + |f.advertiser|
    requires ConstellationIdAt(s, e) == Some(Group(e + 21, z))
    requires AdvertiserOpenAt(s, z) == Some((Group(z + 15, v), FiguresOf(v, f)))
    ensures PartnerTailAt(s, e) == Some(PartnerTailOf(e, f))
  {
    PartnerTailOfAt(e, z, v, f);
  }

  /** `PartnerTailOf` from the positions it computes. */
  lemma PartnerTailOfAt(e: nat, z: nat, v: nat, f: ItemFields)
    requires z == e + 21 + |f.partnerId| && v == z + 15 + |f.advertiser|
    ensures PartnerTailOf(e, f) == PartnerTail(Group(e + 21, z), Group(z + 15, v), FiguresOf(v, f))
  {
  }

  lemma TextPartnerTail(s: string, e: nat, f: ItemFields)
    requires WellFormed(f) && e <= |s| && s[e..] == PartnerTailText(f)
    ensures PartnerTailAt(s, e) == Some(PartnerTailOf(e, f))
  {
    var z := e + 21 + |f.partnerId|;
    var v := z + 15 + |f.advertiser|;
    TextConstellation(s, e, z, f);
    TextAdvertiserOpen(s, z, v, f);
    PartnerTailStep(s, e, z, v, f);
  }

  // ---------------------------------------------------------------------------
  // The lazy partner name and the `\s*` before it
  // ---------------------------------------------------------------------------

  /** A dash-free run is on one line. */
  lemma DashFreeLine(s: string, a: nat, e: nat)
    requires AllIn(s, a, e, DashFree)
    ensures AllIn(s, a, e, NotNewline)
  {
    assert forall k | a <= k < e :: DashFree(s[k]);
  }

  /**
   * No `\s*-` starts inside a dash-free name: the whitespace run from `p`
   * stops on a character of the name, which is not a dash.
   */
  lemma NoSep(s: string, a: nat, e: nat, p: nat, lit: string)
    requires a < p < e <= |s| && AllIn(s, a, e, DashFree) && !IsSpace(s[e - 1])
    ensures SepAt(s, p, lit).None?
  {
    SpanRun(s, p, IsSpace);
    var x := Span(s, p, IsSpace);
    assert x < e;
    assert DashFree(s[x]);
  }

  lemma NoPartnerTail(s: string, a: nat, e: nat, p: nat)
    requires a < p < e <= |s| && AllIn(s, a, e, DashFree) && !IsSpace(s[e - 1])
    ensures PartnerTailAt(s, p).None?
  {
    NoSep(s, a, e, p, "Constellation ID:");
  }

  lemma NoPartnerTailIn(s: string, a: nat, e: nat)
    requires a < e <= |s| && AllIn(s, a, e, DashFree) && !IsSpace(s[e - 1])
    ensures forall p | a < p < e :: PartnerTailAt(s, p).None?
  {
    forall p | a < p < e ensures PartnerTailAt(s, p).None? {
      NoPartnerTail(s, a, e, p);
    }
  }

  /** The partner's name from `a` to `e`, and the partner tail text after it. */
  lemma PartnerPieces(s: string, a: nat, e: nat, f: ItemFields)
    requires f.partner != [] && AllIn(f.partner, 0, |f.partner|, DashFree) && Stripped(f.partner)
    requires a <= |s| && s[a..] == PartnerText(f) && e == a + |f.partner|
    ensures a < e <= |s| && AllIn(s, a, e, DashFree) && !IsSpace(s[a]) && !IsSpace(s[e - 1]) && s[e..] == PartnerTailText(f)
  {
    NameRun(s, a, f.partner, PartnerTailText(f), DashFree);
  }

  /** The lazy partner group from `a` ends at the first place where the partner tail matches. */
  lemma PartnerNameStep(s: string, a: nat, e: nat, t: PartnerTail)
    requires a < e <= |s| && AllIn(s, a, e, NotNewline) && PartnerTailAt(s, e) == Some(t)
    requires forall p | a < p < e :: PartnerTailAt(s, p).None?
    ensures PartnerNameAt(s, a) == Some((e, t))
  {
    RunWithin(s, a, e, NotNewline);
    var r := PartnerNameAt(s, a);
    assert r.Some?;
    assert r.value.0 == e;
  }

  lemma TextPartnerName(s: string, a: nat, e: nat, f: ItemFields)
    requires WellFormed(f) && a <= |s| && s[a..] == PartnerText(f) && e == a + |f.partner|
    ensures PartnerNameAt(s, a) == Some((e, PartnerTailOf(e, f)))
  {
    PartnerPieces(s, a, e, f);
    DashFreeLine(s, a, e);
    NoPartnerTailIn(s, a, e);
    TextPartnerTail(s, e, f);
    PartnerNameStep(s, a, e, PartnerTailOf(e, f));
  }

  /** `\s*` over the one space at `i` before the partner's name, then the name. */
  lemma PartnerStep(s: string, i: nat, e: nat, t: PartnerTail)
    requires i + 1 < |s| && IsSpace(s[i]) && !IsSpace(s[i + 1]) && PartnerNameAt(s, i + 1) == Some((e, t))
    ensures PartnerAt(s, i) == Some((Group(i + 1, e), t))
  {
    OneSpace(s, i);
    assert PartnerNamesFrom(s)(i + 1) == Some((e, t));
    LastAtEnd(i, i + 1, PartnerNamesFrom(s), (e, t));
  }

  lemma TextPartner(s: string, i: nat, e: nat, f: ItemFields)
    requires WellFormed(f) && i <= |s| && s[i..] == " " + PartnerText(f) && e == i + 1 + |f.partner|
    ensures PartnerAt(s, i) == Some((Group(i + 1, e), PartnerTailOf(e, f)))
  {
    CharPiece(s, i, " ", PartnerText(f));
    PartnerPieces(s, i + 1, e, f);
    TextPartnerName(s, i + 1, e, f);
    PartnerStep(s, i, e, PartnerTailOf(e, f));
  }

  // ---------------------------------------------------------------------------
  // `- Partner:` after the fee type, and the whole line item
  // ---------------------------------------------------------------------------

  /** The characters of ` - Partner:` at `e`, and the partner text after them. */
  lemma FeeTailPieces(s: string, e: nat, f: ItemFields)
    requires e <= |s| && s[e..] == FeeTailText(f)
    ensures e + 11 <= |s| && s[e] == ' ' && s[e + 1] == '-' && s[e + 2] == ' ' && LitAt(s, e + 3, "Partner:")
    ensures s[e + 11..] == " " + PartnerText(f)
  {
    CharPiece(s, e, " ", "-" + (" " + ("Partner:" + (" " + PartnerText(f)))));
    CharPiece(s, e + 1, "-", " " + ("Partner:" + (" " + PartnerText(f))));
    CharPiece(s, e + 2, " ", "Partner:" + (" " + PartnerText(f)));
    Piece(s, e + 3, "Partner:", " " + PartnerText(f));
  }

  lemma FeeTailStep(s: string, e: nat, g: Group, t: PartnerTail)
    requires SepAt(s, e, "Partner:") == Some((e + 1, e + 3)) && PartnerAt(s, e + 11) == Some((g, t))
    ensures FeeTailAt(s, e) == Some((g, t))
  {
  }

  /** ` - Partner: ` at `e`, then the partner and the rest of the block. */
  lemma TextFeeTail(s: string, e: nat, e2: nat, f: ItemFields)
    requires WellFormed(f) && e <= |s| && s[e..] == FeeTailText(f) && e2 == e + 12 + |f.partner|
    ensures FeeTailAt(s, e) == Some((Group(e + 12, e2), PartnerTailOf(e2, f)))
  {
    FeeTailPieces(s, e, f);
    OneSep(s, e, "Partner:");
    TextPartner(s, e + 11, e2, f);
    FeeTailStep(s, e, Group(e + 12, e2), PartnerTailOf(e2, f));
  }

  /** Where the groups of the line item match in the block written from `f`. */
  function ItemOf(f: ItemFields): ItemPos {
    var e1 := |f.fee|;
    var e2 := e1 + 12 + |f.partner|;
    ItemPos(Group(0, e1), Group(e1 + 12, e2), PartnerTailOf(e2, f))
  }

  /** `ItemOf` from the positions it computes. */
  lemma ItemOfAt(e1: nat, e2: nat, f: ItemFields)
    requires e1 == |f.fee| && e2 == e1 + 12 + |f.partner|
    ensures ItemOf(f) == ItemPos(Group(0, e1), Group(e1 + 12, e2), PartnerTailOf(e2, f))
  {
  }

  lemma NoFeeTail(s: string, e: nat, p: nat)
    requires 0 < p < e <= |s| && AllIn(s, 0, e, DashFree) && !IsSpace(s[e - 1])
    ensures FeeTailAt(s, p).None?
  {
    NoSep(s, 0, e, p, "Partner:");
  }

  lemma NoFeeTailIn(s: string, e: nat)
    requires 0 < e <= |s| && AllIn(s, 0, e, DashFree) && !IsSpace(s[e - 1])
    ensures forall p | 0 < p < e :: FeeTailAt(s, p).None?
  {
    forall p | 0 < p < e ensures FeeTailAt(s, p).None? {
      NoFeeTail(s, e, p);
    }
  }

  /** The lazy fee type group from the start ends at the first place where ` - Partner:` and the rest match. */
  lemma ItemStep(s: string, e: nat, g: Group, t: PartnerTail)
    requires 0 < e <= |s| && AllIn(s, 0, e, NotNewline) && FeeTailAt(s, e) == Some((g, t))
    requires forall p | 0 < p < e :: FeeTailAt(s, p).None?
    ensures ItemAt(s, 0) == Some(ItemPos(Group(0, e), g, t))
  {
    RunWithin(s, 0, e, NotNewline);
    var r := ItemAt(s, 0);
    assert r.Some?;
    assert r.value.fee.hi == e;
  }

  /** The block written from well-formed fields: the line item pattern matches at its start. */
  lemma TextItem(f: ItemFields)
    requires WellFormed(f)
    ensures ItemAt(ItemLine(f), 0) == Some(ItemOf(f))
  {
    var s := ItemLine(f);
    var e1 := |f.fee|;
    var e2 := e1 + 12 + |f.partner|;
    assert s[0..] == f.fee + FeeTailText(f);
    NameRun(s, 0, f.fee, FeeTailText(f), DashFree);
    DashFreeLine(s, 0, e1);
    NoFeeTailIn(s, e1);
    TextFeeTail(s, e1, e2, f);
    ItemStep(s, e1, Group(e1 + 12, e2), PartnerTailOf(e2, f));
    ItemOfAt(e1, e2, f);
  }

  /** A search finds a match at the start when there is one. */
  lemma FindItemStart(s: string, m: ItemPos)
    requires ItemAt(s, 0) == Some(m)
    ensures FindItem(s) == Some((0, m))
  {
    var r := FindItem(s);
    assert r.Some?;
    assert r.value.0 == 0;
  }

  /** `pattern.search` finds the line item at the start of the block written from well-formed fields. */
  lemma LineItem(f: ItemFields)
    requires WellFormed(f)
    ensures FindItem(ItemLine(f)) == Some((0, ItemOf(f)))
  {
    TextItem(f);
    FindItemStart(ItemLine(f), ItemOf(f));
  }

  // ---------------------------------------------------------------------------
  // The captured text of each group
  // ---------------------------------------------------------------------------

  /** The unit and the amount after the space at `q`. */
  lemma UnitSlices(s: string, q: nat, u: nat, f: ItemFields)
    requires q <= |s| && s[q..] == UnitText(f) && u == q + 1 + |f.uom|
    ensures u + 1 + |f.amount| <= |s|
    ensures Slice(s, Group(q + 1, u)) == f.uom && Slice(s, Group(u + 1, u + 1 + |f.amount|)) == f.amount
  {
    CharPiece(s, q, " ", f.uom + (" " + f.amount));
    FieldSlice(s, q + 1, u, f.uom, " " + f.amount);
    CharPiece(s, u, " ", f.amount);
    assert f.amount + [] == f.amount;
    FieldSlice(s, u + 1, u + 1 + |f.amount|, f.amount, []);
  }

  /** The quantity after the space at `d`, and the unit text after it. */
  lemma QuantitySlice(s: string, d: nat, q: nat, f: ItemFields)
    requires d <= |s| && s[d..] == CountsText(f) && q == d + 1 + |f.qty|
    ensures q <= |s| && Slice(s, Group(d + 1, q)) == f.qty && s[q..] == UnitText(f)
  {
    CharPiece(s, d, " ", f.qty + UnitText(f));
    FieldSlice(s, d + 1, q, f.qty, UnitText(f));
  }

  /** `CountsOf` from the positions it computes. */
  lemma CountsOfAt(d: nat, q: nat, u: nat, f: ItemFields)
    requires q == d + 1 + |f.qty| && u == q + 1 + |f.uom|
    ensures CountsOf(d, f) == (Group(d + 1, q), Group(q + 1, u), Group(u + 1, u + 1 + |f.amount|))
  {
  }

  /** The advertiser id after ` ID: ` at `v`, and the counts text after it. */
  lemma FiguresSlices(s: string, v: nat, d: nat, f: ItemFields)
    requires v <= |s| && s[v..] == FiguresText(f) && d == v + 5 + |f.advertiserId|
    ensures d <= |s| && Slice(s, Group(v + 5, d)) == f.advertiserId && s[d..] == CountsText(f)
  {
    CharPiece(s, v, " ", "ID:" + (" " + (f.advertiserId + CountsText(f))));
    Piece(s, v + 1, "ID:", " " + (f.advertiserId + CountsText(f)));
    CharPiece(s, v + 4, " ", f.advertiserId + CountsText(f));
    FieldSlice(s, v + 5, d, f.advertiserId, CountsText(f));
  }

  /** The figures' groups capture the advertiser id, the quantity, the unit and the amount of `f`. */
  predicate FiguresCapture(s: string, g: Figures, f: ItemFields) {
    && g.advertiserId.lo <= g.advertiserId.hi <= |s| && Slice(s, g.advertiserId) == f.advertiserId
    && g.quantity.lo <= g.quantity.hi <= |s| && Slice(s, g.quantity) == f.qty
    && g.uom.lo <= g.uom.hi <= |s| && Slice(s, g.uom) == f.uom
    && g.amount.lo <= g.amount.hi <= |s| && Slice(s, g.amount) == f.amount
  }

  lemma TextFiguresCapture(s: string, v: nat, f: ItemFields)
    requires v <= |s| && s[v..] == FiguresText(f)
    ensures FiguresCapture(s, FiguresOf(v, f), f)
  {
    var d := v + 5 + |f.advertiserId|;
    var q := d + 1 + |f.qty|;
    var u := q + 1 + |f.uom|;
    FiguresSlices(s, v, d, f);
    QuantitySlice(s, d, q, f);
    UnitSlices(s, q, u, f);
    CountsOfAt(d, q, u, f);
    FiguresOfAt(v, d, f);
  }

  /** The advertiser after ` - Advertiser: ` at `z`, and the figures text after it. */
  lemma AdvertiserOpenSlices(s: string, z: nat, v: nat, f: ItemFields)
    requires z <= |s| && s[z..] == AdvertiserOpenText(f) && v == z + 15 + |f.advertiser|
    ensures v <= |s| && Slice(s, Group(z + 15, v)) == f.advertiser && s[v..] == FiguresText(f)
  {
    AdvertiserOpenPieces(s, z, f);
    CharPiece(s, z + 14, " ", AdvertiserText(f));
    FieldSlice(s, z + 15, v, f.advertiser, FiguresText(f));
  }

  /** The partner id after ` - Constellation ID: ` at `e`, and the text after it. */
  lemma PartnerTailSlices(s: string, e: nat, z: nat, f: ItemFields)
    requires e <= |s| && s[e..] == PartnerTailText(f) && z == e + 21 + |f.partnerId|
    ensures z <= |s| && Slice(s, Group(e + 21, z)) == f.partnerId && s[z..] == AdvertiserOpenText(f)
  {
    var rest := f.partnerId + AdvertiserOpenText(f);
    CharPiece(s, e, " ", "-" + (" " + ("Constellation ID:" + (" " + rest))));
    CharPiece(s, e + 1, "-", " " + ("Constellation ID:" + (" " + rest)));
    CharPiece(s, e + 2, " ", "Constellation ID:" + (" " + rest));
    Piece(s, e + 3, "Constellation ID:", " " + rest);
    CharPiece(s, e + 20, " ", rest);
    FieldSlice(s, e + 21, z, f.partnerId, AdvertiserOpenText(f));
  }

  /** The partner tail's groups capture the partner id, the advertiser and the figures of `f`. */
  predicate TailCapture(s: string, t: PartnerTail, f: ItemFields) {
    && t.partnerId.lo <= t.partnerId.hi <= |s| && Slice(s, t.partnerId) == f.partnerId
    && t.advertiser.lo <= t.advertiser.hi <= |s| && Slice(s, t.advertiser) == f.advertiser
    && FiguresCapture(s, t.figures, f)
  }

  lemma TextTailCapture(s: string, e: nat, f: ItemFields)
    requires e <= |s| && s[e..] == PartnerTailText(f)
    ensures TailCapture(s, PartnerTailOf(e, f), f)
  {
    var z := e + 21 + |f.partnerId|;
    var v := z + 15 + |f.advertiser|;
    PartnerTailSlices(s, e, z, f);
    AdvertiserOpenSlices(s, z, v, f);
    TextFiguresCapture(s, v, f);
    PartnerTailOfAt(e, z, v, f);
  }

  /** The partner after ` - Partner: ` at `e`, and the partner tail text after it. */
  lemma FeeTailSlices(s: string, e: nat, e2: nat, f: ItemFields)
    requires e <= |s| && s[e..] == FeeTailText(f) && e2 == e + 12 + |f.partner|
    ensures e2 <= |s| && Slice(s, Group(e + 12, e2)) == f.partner && s[e2..] == PartnerTailText(f)
  {
    FeeTailPieces(s, e, f);
    CharPiece(s, e + 11, " ", PartnerText(f));
    FieldSlice(s, e + 12, e2, f.partner, PartnerTailText(f));
  }

  /** Each group of the match captures the field of `f` it stands for. */
  predicate ItemCapture(s: string, m: ItemPos, f: ItemFields) {
    && m.fee.lo <= m.fee.hi <= |s| && Slice(s, m.fee) == f.fee
    && m.partner.lo <= m.partner.hi <= |s| && Slice(s, m.partner) == f.partner
    && TailCapture(s, m.tail, f)
  }

  /** Each group of the match on the block captures the field it was written from. */
  lemma LineCapture(f: ItemFields)
    ensures ItemCapture(ItemLine(f), ItemOf(f), f)
  {
    var s := ItemLine(f);
    var e1 := |f.fee|;
    var e2 := e1 + 12 + |f.partner|;
    assert s[0..] == f.fee + FeeTailText(f);
    FieldSlice(s, 0, e1, f.fee, FeeTailText(f));
    FeeTailSlices(s, e1, e2, f);
    TextTailCapture(s, e2, f);
    ItemOfAt(e1, e2, f);
  }

  // ---------------------------------------------------------------------------
  // The row of a block
  // ---------------------------------------------------------------------------

  /** `float(amount.replace(",", ""))` on the amount field. */
  function FieldAmount(f: ItemFields): Option<Decimal>
    requires WellFormed(f)
  {
    assert forall k | 0 <= k < |f.amount| :: NumeralChar(f.amount[k]) || f.amount[k] == ',' by {
      assert forall k | 0 <= k < |f.amount| :: FigureChar(f.amount[k]);
    }
    RemoveCommasKeepsClass(f.amount, NumeralChar);
    ParseDecimal(RemoveCommas(f.amount))
  }

  /**
   * The row of a block written from `f`, stated on the fields: the names and
   * ids as written, the quantity and the amount converted, and none when
   * either conversion raises.
   */
  function FieldsRow(f: ItemFields, h: Header): Option<DetailRow>
    requires WellFormed(f)
  {
    var quantity := ParseInt(RemoveCommas(f.qty));
    var amount := FieldAmount(f);
    if quantity.Some? && amount.Some? then
      Some(DetailRow(InvoiceType, h.invoiceNum, h.month, f.fee, f.partner, f.partnerId,
        f.advertiser, f.advertiserId, quantity.value, f.uom, amount.value))
    else None
  }

  /** The conversion of a match whose groups capture the fields of `f`. */
  lemma RowOfFields(s: string, m: ItemPos, h: Header, f: ItemFields)
    requires WellFormed(f) && ItemShape(s, m) && ItemCapture(s, m, f)
    ensures ItemRowOf(s, m, h) == FieldsRow(f, h)
  {
    StripNoop(f.fee);
    StripNoop(f.partner);
    StripNoop(f.advertiser);
    assert QuantityOf(s, m.tail.figures) == ParseInt(RemoveCommas(f.qty));
    assert AmountOf(s, m.tail.figures) == FieldAmount(f);
  }

  /** The row of the block written from well-formed fields is the row of those fields. */
  lemma LineRow(f: ItemFields, h: Header)
    requires WellFormed(f)
    ensures ItemRow(ItemLine(f), h) == FieldsRow(f, h)
  {
    LineItem(f);
    LineCapture(f);
    ItemRowStep(ItemLine(f), ItemOf(f), h, f);
  }

  /** The row of a text whose search finds, at its start, a match capturing the fields of `f`. */
  lemma ItemRowStep(s: string, m: ItemPos, h: Header, f: ItemFields)
    requires WellFormed(f) && FindItem(s) == Some((0, m)) && ItemCapture(s, m, f)
    ensures ItemRow(s, h) == FieldsRow(f, h)
  {
    assert ItemShape(s, m) && ItemRow(s, h) == ItemRowOf(s, m, h);
    RowOfFields(s, m, h, f);
  }

  /**
   * The detail rows of one well-formed merged block: its fields' row when the
   * quantity and the amount convert, and no row when either raises.
   */
  lemma LineRows(f: ItemFields, h: Header)
    requires WellFormed(f)
    ensures DetailRows([ItemLine(f)], h) == if FieldsRow(f, h).Some? then [FieldsRow(f, h).value] else []
  {
    DetailRowsSingle(ItemLine(f), h);
    LineRow(f, h);
  }

  // ---------------------------------------------------------------------------
  // A worked example
  // ---------------------------------------------------------------------------

  /**
   * The fields of the merged block
   * `Media Cost - Partner: Acme Media - Constellation ID: 1234 - Advertiser: Fall Brands ID: 5678 1,000 Impressions 12.50`,
   * which is `ItemLine(Example)`.
   */
  const Example := ItemFields("Media Cost", "Acme Media", "1234", "Fall Brands", "5678", "1,000", "Impressions", "12.50")

  /** The names: one line, no dash in the fee type and the partner, no colon in the advertiser, no outer whitespace. */
  lemma ExampleNames()
    ensures Example.fee != [] && AllIn(Example.fee, 0, |Example.fee|, DashFree) && Stripped(Example.fee)
    ensures Example.partner != [] && AllIn(Example.partner, 0, |Example.partner|, DashFree) && Stripped(Example.partner)
    ensures Example.advertiser != [] && AllIn(Example.advertiser, 0, |Example.advertiser|, ColonFree) && Stripped(Example.advertiser)
  {
  }

  /** The ids, the figures and the unit in their classes. */
  lemma ExampleFigures()
    ensures Example.partnerId != [] && AllIn(Example.partnerId, 0, |Example.partnerId|, IsDigit)
    ensures Example.advertiserId != [] && AllIn(Example.advertiserId, 0, |Example.advertiserId|, IsDigit)
    ensures Example.qty != [] && AllIn(Example.qty, 0, |Example.qty|, QuantityChar)
    ensures Example.uom != [] && AllIn(Example.uom, 0, |Example.uom|, IsWord)
    ensures Example.amount != [] && AllIn(Example.amount, 0, |Example.amount|, FigureChar)
  {
  }

  lemma ExampleWellFormed()
    ensures WellFormed(Example)
  {
    ExampleNames();
    ExampleFigures();
  }

  /** The groups of the example's match, at the offsets of its fields. */
  lemma ExamplePositions()
    ensures ItemOf(Example) == ItemPos(Group(0, 10), Group(22, 32),
      PartnerTail(Group(53, 57), Group(72, 83), Figures(Group(88, 92), Group(93, 98), Group(99, 110), Group(111, 116))))
  {
    ItemOfAt(10, 32, Example);
    PartnerTailOfAt(32, 57, 83, Example);
    FiguresOfAt(83, 92, Example);
    CountsOfAt(92, 98, 110, Example);
  }

  /** `pattern.search` on the example block matches at its start, each group on its field. */
  lemma ExampleFound()
    ensures FindItem(ItemLine(Example)) == Some((0, ItemOf(Example)))
    ensures ItemCapture(ItemLine(Example), ItemOf(Example), Example)
  {
    ExampleWellFormed();
    LineItem(Example);
    LineCapture(Example);
  }

  lemma ExampleQuantity()
    ensures RemoveCommas("1,000") == "1000" && ParseInt("1000") == Some(1000)
  {
    assert "1,000"[1..] == ",000";
    assert ",000"[1..] == "000";
    assert "000"[1..] == "00";
    assert "00"[1..] == "0";
    DigitsFive('1', '0', '0', '0', '0');
  }

  lemma ExampleAmount()
    ensures RemoveCommas("12.50") == "12.50" && ParseDecimal("12.50") == Some(Decimal(1250, 2))
  {
    RemoveCommasSpec("12.50");
    ExampleDecimal();
  }

  lemma ExampleDecimal()
    ensures ParseDecimal("12.50") == Some(Decimal(1250, 2))
  {
    ParseDecimalPointed("12", "50");
    assert "12" + "." + "50" == "12.50";
    assert "12" + "50" == "1250";
    DigitsFive('1', '2', '5', '0', '0');
  }

  /** The example's row: the names and ids as written, 1,000 as 1000 and 12.50 as a decimal. */
  lemma ExampleRow(h: Header)
    ensures WellFormed(Example)
    ensures FieldsRow(Example, h) == Some(DetailRow(InvoiceType, h.invoiceNum, h.month,
      "Media Cost", "Acme Media", "1234", "Fall Brands", "5678", 1000, "Impressions", Decimal(1250, 2)))
  {
    ExampleWellFormed();
    ExampleQuantity();
    ExampleAmount();
  }

  /** The detail rows of the example block: one row, with the example's fields. */
  lemma ExampleRows(h: Header)
    ensures DetailRows([ItemLine(Example)], h) == [DetailRow(InvoiceType, h.invoiceNum, h.month,
      "Media Cost", "Acme Media", "1234", "Fall Brands", "5678", 1000, "Impressions", Decimal(1250, 2))]
  {
    ExampleRow(h);
    LineRows(Example, h);
  }
}
