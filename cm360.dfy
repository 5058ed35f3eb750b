/**
 * The CM360 extractor (`extract_cm360`) and the text flattening it starts
 * with (`flatten_text_block`). The detail text may be a string or a nested
 * list of strings; it is flattened to one string, four header patterns are
 * searched in it, and every match of the line item pattern becomes a row.
 */
module Cm360 {
  import opened Options
  import opened Text
  import opened Scan
  import opened Patterns
  import opened Numbers

  // ---------------------------------------------------------------------------
  // flatten_text_block
  // ---------------------------------------------------------------------------

  /** A text block: a string, or a list whose items are blocks again. */
  datatype Block = Leaf(text: string) | Node(items: seq<Block>)

  /** `recursive_flatten`: the strings of a block, depth first and left to right. */
  function Leaves(b: Block): seq<string>
    decreases b, 1
  {
    match b
    case Leaf(t) => [t]
    case Node(items) => LeavesOf(items)
  }

  /** The strings of the items of a list, one item after the other. */
  function LeavesOf(items: seq<Block>): seq<string>
    decreases items, 0
  {
    if items == [] then [] else Leaves(items[0]) + LeavesOf(items[1..])
  }

  /** `flatten_text_block`: a list becomes its strings joined by newlines; anything else is returned as it is. */
  function Flatten(b: Block): (r: string)
    ensures b.Leaf? ==> r == b.text
  {
    match b
    case Leaf(t) => t
    case Node(_) => Join("\n", Leaves(b))
  }

  /** The items of a list give their strings in order, so splitting a list splits its strings. */
  lemma {:induction false} LeavesOfAppend(a: seq<Block>, b: seq<Block>)
    ensures LeavesOf(a + b) == LeavesOf(a) + LeavesOf(b)
  {
    if a == [] {
      assert a + b == b;
    } else {
      assert (a + b)[0] == a[0];
      assert (a + b)[1..] == a[1..] + b;
      LeavesOfAppend(a[1..], b);
    }
  }

  /** A list nested inside a list adds nothing: its strings take its place. */
  lemma NestingIsTransparent(a: seq<Block>, inner: seq<Block>, c: seq<Block>)
    ensures Leaves(Node(a + [Node(inner)] + c)) == LeavesOf(a) + LeavesOf(inner) + LeavesOf(c)
  {
    var x := a + [Node(inner)];
    LeavesOfAppend(x, c);
    LeavesOfAppend(a, [Node(inner)]);
    LeavesOfSingle(Node(inner));
    assert LeavesOf(x + c) == LeavesOf(a) + LeavesOf(inner) + LeavesOf(c);
  }

  lemma LeavesOfSingle(b: Block)
    ensures LeavesOf([b]) == Leaves(b)
  {
    assert [b][1..] == [];
  }

  /** The list whose items are the strings `xs`. */
  function LeafList(xs: seq<string>): (r: seq<Block>)
    ensures |r| == |xs| && forall k | 0 <= k < |xs| :: r[k] == Leaf(xs[k])
  {
    if xs == [] then [] else [Leaf(xs[0])] + LeafList(xs[1..])
  }

  /** A flat list of strings has exactly those strings, so it flattens to them joined by newlines. */
  lemma {:induction false} LeavesOfLeafList(xs: seq<string>)
    ensures LeavesOf(LeafList(xs)) == xs
    ensures Flatten(Node(LeafList(xs))) == Join("\n", xs)
  {
    if xs != [] {
      var l := LeafList(xs);
      assert l[1..] == LeafList(xs[1..]);
      LeavesOfLeafList(xs[1..]);
      assert xs == [xs[0]] + xs[1..];
    }
  }

  /**
   * Flattening is idempotent: the string it gives is returned unchanged,
   * and the flat list of a block's strings has the same strings again.
   */
  lemma FlattenIdempotent(b: Block)
    ensures Flatten(Leaf(Flatten(b))) == Flatten(b)
    ensures Leaves(Node(LeafList(Leaves(b)))) == Leaves(b)
    ensures b.Node? ==> Flatten(Node(LeafList(Leaves(b)))) == Flatten(b)
  {
    LeavesOfLeafList(Leaves(b));
  }

  // ---------------------------------------------------------------------------
  // Invoice number:\s*(\d+)
  // ---------------------------------------------------------------------------

  /** The invoice number at `p`: the `\s*` and the `\d+` are both forced to their longest runs. */
  function InvoiceNumberAt(s: string, p: nat): (r: Option<Group>)
    ensures r.Some? ==> LitAt(s, p, "Invoice number:") && AllIn(s, p + 15, r.value.lo, IsSpace)
    ensures r.Some? ==> r.value.lo < r.value.hi <= |s| && AllIn(s, r.value.lo, r.value.hi, IsDigit)
    ensures r.Some? ==> r.value.hi == |s| || !IsDigit(s[r.value.hi])
  {
    if !LitAt(s, p, "Invoice number:") then None
    else
      var j := Span(s, p + 15, IsSpace);
      SpanRun(s, p + 15, IsSpace);
      match RunAt(s, j, IsDigit)
      case None => None
      case Some(e) => Some(Group(j, e))
  }

  function FindInvoiceNumber(s: string): (r: Option<(nat, Group)>)
    ensures r.Some? ==> r.value.0 <= |s| && InvoiceNumberAt(s, r.value.0) == Some(r.value.1)
    ensures r.Some? ==> forall p: nat | p < r.value.0 :: InvoiceNumberAt(s, p).None?
    ensures r.None? ==> forall p: nat | p <= |s| :: InvoiceNumberAt(s, p).None?
  {
    var at: nat -> Option<Group> := (p: nat) => InvoiceNumberAt(s, p);
    assert forall p: nat :: at(p) == InvoiceNumberAt(s, p);
    Search(s, at)
  }

  // ---------------------------------------------------------------------------
  // (\w+ \d{1,2}, \d{4})\s*-\s*(\w+ \d{1,2}, \d{4})
  // ---------------------------------------------------------------------------

  /**
   * `\w+ \d{1,2}, \d{4}` at `a`. The word run cannot end early, since the
   * character after it would then be a word character and not the space;
   * the day cannot either, since the comma must follow it.
   */
  function WordDateAt(s: string, a: nat): (r: Option<DatePos>)
    ensures r.Some? ==> a < r.value.a && AllIn(s, a, r.value.a, IsWord) && DateTailParse(s, true, r.value)
    ensures r.Some? ==> r.value.d + 4 <= |s|
  {
    if a > |s| then None
    else
      var k := Span(s, a, IsWord);
      SpanRun(s, a, IsWord);
      if a == k then None
      else match DateTailAt(s, k, true)
        case None => None
        case Some(m) =>
          DateTailAtSound(s, k, true);
          Some(m)
  }

  /** Where a date range matches: the first date from `start1`, the dash, the second date from `start2`. */
  datatype RangePos = RangePos(start1: nat, first: DatePos, dash: nat, start2: nat, second: DatePos)

  /** `\s*-\s*` and the second date after the first one ends at `e`: the dash, where the date starts, the date. */
  function SecondDateAt(s: string, e: nat): (r: Option<(nat, nat, DatePos)>)
    requires e <= |s|
    ensures r.Some? ==> AllIn(s, e, r.value.0, IsSpace) && r.value.0 < |s| && s[r.value.0] == '-'
    ensures r.Some? ==> AllIn(s, r.value.0 + 1, r.value.1, IsSpace) && WordDateAt(s, r.value.1) == Some(r.value.2)
  {
    var x := Span(s, e, IsSpace);
    SpanRun(s, e, IsSpace);
    if x < |s| && s[x] == '-' then
      var y := Span(s, x + 1, IsSpace);
      SpanRun(s, x + 1, IsSpace);
      var d := WordDateAt(s, y);
      if d.Some? then Some((x, y, d.value)) else None
    else None
  }

  /** The date range at `p`: each `\s*` takes the whole run, as a dash or a word character follows it. */
  function RangeAt(s: string, p: nat): (r: Option<RangePos>)
    ensures r.Some? ==> r.value.start1 == p && WordDateAt(s, p) == Some(r.value.first) && r.value.first.d + 4 <= |s|
    ensures r.Some? ==> SecondDateAt(s, r.value.first.d + 4) == Some((r.value.dash, r.value.start2, r.value.second))
  {
    var first := WordDateAt(s, p);
    if first.None? then None
    else
      var second := SecondDateAt(s, first.value.d + 4);
      if second.None? then None
      else Some(RangePos(p, first.value, second.value.0, second.value.1, second.value.2))
  }

  function FindRange(s: string): (r: Option<(nat, RangePos)>)
    ensures r.Some? ==> r.value.0 <= |s| && RangeAt(s, r.value.0) == Some(r.value.1)
    ensures r.Some? ==> forall p: nat | p < r.value.0 :: RangeAt(s, p).None?
    ensures r.None? ==> forall p: nat | p <= |s| :: RangeAt(s, p).None?
  {
    var at: nat -> Option<RangePos> := (p: nat) => RangeAt(s, p);
    assert forall p: nat :: at(p) == RangeAt(s, p);
    Search(s, at)
  }

  // ---------------------------------------------------------------------------
  // Advertiser Id:?[:\s]+(\d+)
  // ---------------------------------------------------------------------------

  /**
   * The advertiser id at `p`. Between them, `:?` and `[:\s]+` take any
   * non-empty run of colons and whitespace, and the digits must follow the
   * whole run.
   */
  function AdvertiserIdAt(s: string, p: nat): (r: Option<Group>)
    ensures r.Some? ==> LitAt(s, p, "Advertiser Id") && p + 13 < r.value.lo && AllIn(s, p + 13, r.value.lo, ColonOrSpace)
    ensures r.Some? ==> r.value.lo < r.value.hi <= |s| && AllIn(s, r.value.lo, r.value.hi, IsDigit)
    ensures r.Some? ==> r.value.hi == |s| || !IsDigit(s[r.value.hi])
  {
    if !LitAt(s, p, "Advertiser Id") then None
    else
      var j := Span(s, p + 13, ColonOrSpace);
      SpanRun(s, p + 13, ColonOrSpace);
      if j == p + 13 then None
      else match RunAt(s, j, IsDigit)
        case None => None
        case Some(e) => Some(Group(j, e))
  }

  function FindAdvertiserId(s: string): (r: Option<(nat, Group)>)
    ensures r.Some? ==> r.value.0 <= |s| && AdvertiserIdAt(s, r.value.0) == Some(r.value.1)
    ensures r.Some? ==> forall p: nat | p < r.value.0 :: AdvertiserIdAt(s, p).None?
    ensures r.None? ==> forall p: nat | p <= |s| :: AdvertiserIdAt(s, p).None?
  {
    var at: nat -> Option<Group> := (p: nat) => AdvertiserIdAt(s, p);
    assert forall p: nat :: at(p) == AdvertiserIdAt(s, p);
    Search(s, at)
  }

  // ---------------------------------------------------------------------------
  // Total (amount due|in USD)\s*\$([\d,]+\.\d{2})   (IGNORECASE)
  // ---------------------------------------------------------------------------

  /**
   * Where the `\s*` starts after the alternation at `p`: the first branch
   * is tried first, and the second only where the first does not match.
   */
  function TotalLabelAt(s: string, p: nat): (r: Option<nat>)
    ensures r.Some? ==> LitAtCI(s, p, "total ") && (r.value == p + 16 || r.value == p + 12) && r.value <= |s|
    ensures r.Some? && r.value == p + 16 ==> LitAtCI(s, p + 6, "amount due")
    ensures r.Some? && r.value == p + 12 ==> LitAtCI(s, p + 6, "in usd") && !LitAtCI(s, p + 6, "amount due")
    ensures r.None? && LitAtCI(s, p, "total ") ==> !LitAtCI(s, p + 6, "amount due") && !LitAtCI(s, p + 6, "in usd")
  {
    if !LitAtCI(s, p, "total ") then None
    else if LitAtCI(s, p + 6, "amount due") then Some(p + 16)
    else if LitAtCI(s, p + 6, "in usd") then Some(p + 12)
    else None
  }

  /** `\s*\$([\d,]+\.\d{2})` from `q`: the amount, with its point three characters before its end. */
  function DollarAt(s: string, q: nat): (r: Option<Group>)
    requires q <= |s|
    ensures r.Some? ==> r.value.lo + 3 <= r.value.hi <= |s| && AmountParse(s, r.value.lo, r.value.hi - 3)
    ensures r.Some? ==> q < r.value.lo && AllIn(s, q, r.value.lo - 1, IsSpace) && s[r.value.lo - 1] == '$'
  {
    SpanRun(s, q, IsSpace);
    DollarFrom(s, Span(s, q, IsSpace))
  }

  /** `\$([\d,]+\.\d{2})` at `d`. */
  function DollarFrom(s: string, d: nat): (r: Option<Group>)
    requires d <= |s|
    ensures r.Some? ==> r.value.lo == d + 1 && d < |s| && s[d] == '$'
    ensures r.Some? ==> r.value.lo + 3 <= r.value.hi <= |s| && AmountParse(s, r.value.lo, r.value.hi - 3)
  {
    if d < |s| && s[d] == '$' then
      var pt := AmountAt(s, d + 1);
      if pt.Some? then Some(Group(d + 1, pt.value + 3)) else None
    else None
  }

  /** The total at `p`: a label, then the dollar amount. */
  function TotalAt(s: string, p: nat): (r: Option<Group>)
    ensures r.Some? ==> TotalLabelAt(s, p).Some? && DollarAt(s, TotalLabelAt(s, p).value) == r
    ensures r.Some? ==> r.value.lo + 3 <= r.value.hi <= |s| && AmountParse(s, r.value.lo, r.value.hi - 3)
  {
    var q := TotalLabelAt(s, p);
    if q.None? then None else DollarAt(s, q.value)
  }

  /** The recogniser the total search tries at each position. */
  function TotalAts(s: string): nat -> Option<Group> {
    (p: nat) => TotalAt(s, p)
  }

  function FindTotal(s: string): (r: Option<(nat, Group)>)
    ensures r.Some? ==> r.value.0 <= |s| && TotalAt(s, r.value.0) == Some(r.value.1)
    ensures r.Some? ==> forall p: nat | p < r.value.0 :: TotalAt(s, p).None?
    ensures r.None? ==> forall p: nat | p <= |s| :: TotalAt(s, p).None?
  {
    assert forall p: nat :: TotalAts(s)(p) == TotalAt(s, p);
    Search(s, TotalAts(s))
  }

  // ---------------------------------------------------------------------------
  // IGNORECASE: the total does not depend on the case of the letters
  // ---------------------------------------------------------------------------

  /** `s` and `t` differ at most in the ASCII case of their letters. */
  predicate SameUpToCase(s: string, t: string) {
    |s| == |t| && forall k | 0 <= k < |s| :: Lower(s[k]) == Lower(t[k])
  }

  /** Characters that fold to the same one are equal, or both letters. */
  lemma LowerSame(c: char, d: char)
    requires Lower(c) == Lower(d)
    ensures c == d || (IsAlpha(c) && IsAlpha(d))
  {
  }

  /** A class without letters sees the same positions in two strings that differ only in case. */
  lemma ClassAgrees(s: string, t: string, P: char -> bool)
    requires SameUpToCase(s, t)
    requires forall c :: P(c) ==> !IsAlpha(c)
    ensures forall k | 0 <= k < |s| :: P(s[k]) == P(t[k])
  {
    forall k | 0 <= k < |s| ensures P(s[k]) == P(t[k]) {
      LowerSame(s[k], t[k]);
    }
  }

  /** Runs of a class on which two strings agree end at the same place. */
  lemma SpanAgrees(s: string, t: string, i: nat, P: char -> bool)
    requires i <= |s| == |t|
    requires forall k | i <= k < |s| :: P(s[k]) == P(t[k])
    ensures Span(s, i, P) == Span(t, i, P)
    decreases |s| - i
  {
    if i < |s| && P(s[i]) {
      SpanAgrees(s, t, i + 1, P);
    }
  }

  /** The characters the total's pattern reads outside its two labels are letter-free. */
  predicate TotalClassesAgree(s: string, t: string) {
    && SameUpToCase(s, t)
    && (forall k | 0 <= k < |s| :: IsSpace(s[k]) == IsSpace(t[k]))
    && (forall k | 0 <= k < |s| :: DigitOrComma(s[k]) == DigitOrComma(t[k]))
    && (forall k | 0 <= k < |s| :: IsDigit(s[k]) == IsDigit(t[k]))
    && (forall k | 0 <= k < |s| :: (s[k] == '$') == (t[k] == '$'))
  }

  lemma TotalClasses(s: string, t: string)
    requires SameUpToCase(s, t)
    ensures TotalClassesAgree(s, t)
  {
    ClassAgrees(s, t, IsSpace);
    ClassAgrees(s, t, DigitOrComma);
    ClassAgrees(s, t, IsDigit);
    ClassAgrees(s, t, c => c == '$');
  }

  /** A literal compared up to case is found in both or in neither. */
  lemma LitAtCIAgrees(s: string, t: string, i: nat, lit: string)
    requires SameUpToCase(s, t)
    ensures LitAtCI(s, i, lit) == LitAtCI(t, i, lit)
  {
    if i + |lit| <= |s| {
      assert forall j | i <= j < i + |lit| :: Lower(s[j]) == Lower(t[j]);
    }
  }

  lemma TotalLabelAgrees(s: string, t: string, p: nat)
    requires SameUpToCase(s, t)
    ensures TotalLabelAt(s, p) == TotalLabelAt(t, p)
  {
    LitAtCIAgrees(s, t, p, "total ");
    LitAtCIAgrees(s, t, p + 6, "amount due");
    LitAtCIAgrees(s, t, p + 6, "in usd");
  }

  lemma AmountAtAgrees(s: string, t: string, i: nat)
    requires TotalClassesAgree(s, t)
    ensures AmountAt(s, i) == AmountAt(t, i)
  {
    if i <= |s| {
      SpanAgrees(s, t, i, DigitOrComma);
      var j := Span(s, i, DigitOrComma);
      assert AllIn(s, i, j, DigitOrComma) == AllIn(t, i, j, DigitOrComma);
      assert AllIn(s, j + 1, j + 3, IsDigit) == AllIn(t, j + 1, j + 3, IsDigit);
    }
  }

  lemma DollarAtAgrees(s: string, t: string, q: nat)
    requires TotalClassesAgree(s, t) && q <= |s|
    ensures DollarAt(s, q) == DollarAt(t, q)
  {
    SpanAgrees(s, t, q, IsSpace);
    var d := Span(s, q, IsSpace);
    AmountAtAgrees(s, t, d + 1);
    assert d < |s| ==> (s[d] == '$') == (t[d] == '$');
    assert DollarFrom(s, d) == DollarFrom(t, d);
  }

  lemma TotalAtAgrees(s: string, t: string, p: nat)
    requires TotalClassesAgree(s, t)
    ensures TotalAt(s, p) == TotalAt(t, p)
  {
    TotalLabelAgrees(s, t, p);
    if TotalLabelAt(s, p).Some? {
      DollarAtAgrees(s, t, TotalLabelAt(s, p).value);
    }
  }

  /** The amount a total match captures has no letter, so it is the same text in both strings. */
  lemma AmountTextAgrees(s: string, t: string, g: Group)
    requires SameUpToCase(s, t)
    requires g.lo + 3 <= g.hi <= |s| && AmountParse(s, g.lo, g.hi - 3)
    ensures Slice(s, g) == Slice(t, g)
  {
    var j := g.hi - 3;
    forall k | g.lo <= k < g.hi ensures s[k] == t[k] {
      if k < j { assert DigitOrComma(s[k]); } else if k > j { assert IsDigit(s[k]); }
      CharAgrees(s, t, k);
    }
  }

  lemma CharAgrees(s: string, t: string, k: nat)
    requires SameUpToCase(s, t) && k < |s| && !IsAlpha(s[k])
    ensures s[k] == t[k]
  {
    LowerSame(s[k], t[k]);
  }

  // ---------------------------------------------------------------------------
  // Header fields, with "N/A" where their patterns miss
  // ---------------------------------------------------------------------------

  /** The header fields every CM360 row carries, and the total of the summary row. */
  datatype Header = Header(invoiceNum: string, month: string, advertiserId: string, total: string)

  /** A captured run of digits never reads as the sentinel "N/A". */
  lemma DigitsNotNA(s: string, g: Group)
    requires g.lo < g.hi <= |s| && AllIn(s, g.lo, g.hi, IsDigit)
    ensures Slice(s, g) != "N/A" && AllIn(Slice(s, g), 0, g.hi - g.lo, IsDigit)
  {
    SliceAllIn(s, g.lo, g.hi, IsDigit);
    assert Slice(s, g)[0] == s[g.lo];
  }

  /** `invoice_number_match.group(1)`, or "N/A". */
  function InvoiceNumberField(s: string): (r: string)
    ensures r == "N/A" <==> FindInvoiceNumber(s).None?
    ensures r != "N/A" ==> r != [] && AllIn(r, 0, |r|, IsDigit)
    ensures FindInvoiceNumber(s).Some? ==> r == Slice(s, FindInvoiceNumber(s).value.1)
  {
    match FindInvoiceNumber(s)
    case None => "N/A"
    case Some((_, g)) =>
      DigitsNotNA(s, g);
      Slice(s, g)
  }

  /** The text of the date read from `start`. */
  function DateText(s: string, start: nat, d: DatePos): string
    requires start <= d.d + 4 <= |s|
  {
    s[start..d.d + 4]
  }

  /** Both dates of a range lie inside the text, each after where it starts. */
  lemma RangeBounds(s: string, p: nat, m: RangePos)
    requires RangeAt(s, p) == Some(m)
    ensures m.start1 < m.first.d + 4 <= |s| && m.start2 < m.second.d + 4 <= |s|
  {
    assert WordDateAt(s, m.start2) == Some(m.second);
  }

  /** `f"{group(1)} - {group(2)}"` of the date range search, or "N/A". */
  function MonthField(s: string): (r: string)
    ensures r == "N/A" <==> FindRange(s).None?
    ensures FindRange(s).Some? ==> var m := FindRange(s).value.1;
      r == DateText(s, m.start1, m.first) + " - " + DateText(s, m.start2, m.second)
  {
    match FindRange(s)
    case None => "N/A"
    case Some((p, m)) =>
      RangeBounds(s, p, m);
      DateText(s, m.start1, m.first) + " - " + DateText(s, m.start2, m.second)
  }

  /** `advertiser_id_match.group(1)`, or "N/A". */
  function AdvertiserIdField(s: string): (r: string)
    ensures r == "N/A" <==> FindAdvertiserId(s).None?
    ensures r != "N/A" ==> r != [] && AllIn(r, 0, |r|, IsDigit)
    ensures FindAdvertiserId(s).Some? ==> r == Slice(s, FindAdvertiserId(s).value.1)
  {
    match FindAdvertiserId(s)
    case None => "N/A"
    case Some((_, g)) =>
      DigitsNotNA(s, g);
      Slice(s, g)
  }

  /** `total_amount_match.group(2)` as text, or "N/A": the total is never converted to a number. */
  function TotalField(s: string): (r: string)
    ensures r == "N/A" <==> FindTotal(s).None?
    ensures r != "N/A" ==> TwoDecimals(RemoveCommas(r))
    ensures FindTotal(s).Some? ==> r == Slice(s, FindTotal(s).value.1)
  {
    match FindTotal(s)
    case None => "N/A"
    case Some((p, g)) =>
      TotalText(s, p, g);
      Slice(s, g)
  }

  /** The group the total search captures is an amount. */
  lemma TotalGroup(s: string, p: nat, g: Group)
    requires FindTotal(s) == Some((p, g))
    ensures g.lo + 3 <= g.hi <= |s| && AmountParse(s, g.lo, g.hi - 3)
  {
  }

  /** The captured amount has two decimals, and its first character is a digit or a comma, not the 'N' of "N/A". */
  lemma TotalText(s: string, p: nat, g: Group)
    requires FindTotal(s) == Some((p, g))
    ensures g.lo <= g.hi <= |s| && Slice(s, g) != "N/A" && TwoDecimals(RemoveCommas(Slice(s, g)))
  {
    TotalGroup(s, p, g);
    AmountShape(s, g.lo, g.hi - 3);
    assert Slice(s, g)[0] == s[g.lo];
  }

  /**
   * IGNORECASE applies to the labels: a text whose letters differ only in
   * case gives the same total, at the same place.
   */
  lemma TotalIgnoresCase(s: string, t: string)
    requires SameUpToCase(s, t)
    ensures FindTotal(s) == FindTotal(t)
    ensures TotalField(s) == TotalField(t)
  {
    TotalClasses(s, t);
    FindTotalAgrees(s, t);
    if FindTotal(s).Some? {
      var (p, g) := FindTotal(s).value;
      TotalGroup(s, p, g);
      AmountTextAgrees(s, t, g);
      assert TotalField(s) == Slice(s, g);
      assert TotalField(t) == Slice(t, g);
    }
  }

  lemma FindTotalAgrees(s: string, t: string)
    requires TotalClassesAgree(s, t)
    ensures FindTotal(s) == FindTotal(t)
  {
    forall p | 0 <= p <= |s| ensures TotalAts(s)(p) == TotalAts(t)(p) {
      TotalAtAgrees(s, t, p);
    }
    FirstCongruent(0, |s|, TotalAts(s), TotalAts(t));
  }

  function HeaderOf(s: string): Header {
    Header(InvoiceNumberField(s), MonthField(s), AdvertiserIdField(s), TotalField(s))
  }

  // ---------------------------------------------------------------------------
  // The line item pattern (DOTALL), read from its end:
  //   Advertiser: "?(?P<advertiser_name>.+?)", ID:\s*(?P<advertiser_id>\d+)
  //   \s*-\s*Campaign:\s*\n?"(?P<campaign>.+?)", ID:\s*(?P<campaign_id>\d+),
  //   Billing Code:\s*(?P<billing_code>[\w\-]+)\s*-\s*Fee:\s*CPM
  //   \s+(?P<unit_price>[\d\.]+)\s+(?P<quantity>[\d,]+)\s+(?P<amount>[\d\.]+)
  // ---------------------------------------------------------------------------

  /** Where the fee part matches: the dash, "Fee:", "CPM" and the three figures. */
  datatype FeeTail = FeeTail(dash: nat, fee: nat, cpm: nat, price: Group, qty: Group, amount: Group)

  /**
   * `\s*-\s*Fee:\s*CPM` then the three figures match from `e` to
   * `f.amount.hi`, every run being a maximal one.
   */
  predicate FeeTailParse(s: string, e: nat, f: FeeTail) {
    && AllIn(s, e, f.dash, IsSpace) && f.dash < |s| && s[f.dash] == '-'
    && AllIn(s, f.dash + 1, f.fee, IsSpace) && LitAt(s, f.fee, "Fee:")
    && AllIn(s, f.fee + 4, f.cpm, IsSpace) && LitAt(s, f.cpm, "CPM")
    && FiguresParse(s, f.cpm + 3, f.price, f.qty, f.amount)
  }

  /** The three figures after "CPM": `\s+([\d\.]+)\s+([\d,]+)\s+([\d\.]+)` from `i`. */
  predicate FiguresParse(s: string, i: nat, price: Group, qty: Group, amount: Group) {
    && i < price.lo && AllIn(s, i, price.lo, IsSpace)
    && price.lo < price.hi && AllIn(s, price.lo, price.hi, DigitOrDot)
    && price.hi < qty.lo && AllIn(s, price.hi, qty.lo, IsSpace)
    && qty.lo < qty.hi && AllIn(s, qty.lo, qty.hi, DigitOrComma)
    && qty.hi < amount.lo && AllIn(s, qty.hi, amount.lo, IsSpace)
    && amount.lo < amount.hi && AllIn(s, amount.lo, amount.hi, DigitOrDot)
    && (amount.hi == |s| || !DigitOrDot(s[amount.hi]))
  }

  /** Each run among the figures is forced: the class of the next element cannot take its characters. */
  function FiguresAt(s: string, i: nat): (r: Option<(Group, Group, Group)>)
    ensures r.Some? ==> FiguresParse(s, i, r.value.0, r.value.1, r.value.2)
  {
    match RunAt(s, i, IsSpace)
    case None => None
    case Some(pl) => match RunAt(s, pl, DigitOrDot)
      case None => None
      case Some(ph) => match RunAt(s, ph, IsSpace)
        case None => None
        case Some(ql) => match RunAt(s, ql, DigitOrComma)
          case None => None
          case Some(qh) => match RunAt(s, qh, IsSpace)
            case None => None
            case Some(al) => match RunAt(s, al, DigitOrDot)
              case None => None
              case Some(ah) => Some((Group(pl, ph), Group(ql, qh), Group(al, ah)))
  }

  /** The figures have one parse, the one `FiguresAt` finds. */
  lemma FiguresAtComplete(s: string, i: nat, price: Group, qty: Group, amount: Group)
    requires FiguresParse(s, i, price, qty, amount)
    ensures FiguresAt(s, i) == Some((price, qty, amount))
  {
    RunAtComplete(s, i, price.lo, IsSpace);
    RunAtComplete(s, price.lo, price.hi, DigitOrDot);
    RunAtComplete(s, price.hi, qty.lo, IsSpace);
    RunAtComplete(s, qty.lo, qty.hi, DigitOrComma);
    RunAtComplete(s, qty.hi, amount.lo, IsSpace);
    RunAtComplete(s, amount.lo, amount.hi, DigitOrDot);
  }

  /** `\s*CPM` after "Fee:" at `y`: where "CPM" starts. */
  function CpmAt(s: string, y: nat): (r: Option<nat>)
    requires y + 4 <= |s|
    ensures r.Some? ==> AllIn(s, y + 4, r.value, IsSpace) && LitAt(s, r.value, "CPM")
  {
    var c := Span(s, y + 4, IsSpace);
    SpanRun(s, y + 4, IsSpace);
    if LitAt(s, c, "CPM") then Some(c) else None
  }

  /** The fee part: `\s*-\s*Fee:` and `\s*CPM` are forced, then the figures. */
  function FeeTailAt(s: string, e: nat): (r: Option<FeeTail>)
    ensures r.Some? ==> FeeTailParse(s, e, r.value)
  {
    var sep := SepAt(s, e, "Fee:");
    if sep.None? then None
    else
      var cpm := CpmAt(s, sep.value.1);
      if cpm.None? then None
      else
        var fig := FiguresAt(s, cpm.value + 3);
        if fig.None? then None
        else Some(FeeTail(sep.value.0, sep.value.1, cpm.value, fig.value.0, fig.value.1, fig.value.2))
  }

  predicate WordOrDash(c: char) { IsWord(c) || c == '-' }

  /** The recogniser the billing code's backtracking tries at each end. */
  function FeeTails(s: string): nat -> Option<FeeTail> {
    (e: nat) => FeeTailAt(s, e)
  }

  /**
   * `(?P<billing_code>[\w\-]+)` followed by the fee part, from `b`. The code
   * may contain dashes, so the greedy run gives characters back, longest
   * first, until the fee part matches after it.
   */
  function CodeAt(s: string, b: nat): (r: Option<(nat, FeeTail)>)
    requires b <= |s|
    ensures r.Some? ==> b < r.value.0 && AllIn(s, b, r.value.0, WordOrDash) && FeeTailAt(s, r.value.0) == Some(r.value.1)
    ensures r.Some? ==> forall e | r.value.0 < e <= Span(s, b, WordOrDash) :: FeeTailAt(s, e).None?
    ensures r.None? ==> forall e | b < e <= Span(s, b, WordOrDash) :: FeeTailAt(s, e).None?
  {
    SpanRun(s, b, WordOrDash);
    assert forall e: nat :: FeeTails(s)(e) == FeeTailAt(s, e);
    Last(b + 1, Span(s, b, WordOrDash), FeeTails(s))
  }

  /** Where the campaign's tail matches: the campaign id, the billing code, the fee part. */
  datatype CampaignTail = CampaignTail(campaignId: Group, code: Group, fee: FeeTail)

  /** `", ID:\s*(\d+)` at `e`: the quote that closes a name, then its id; both runs are forced. */
  function QuotedIdAt(s: string, e: nat): (r: Option<Group>)
    ensures r.Some? ==> LitAt(s, e, "\", ID:") && AllIn(s, e + 6, r.value.lo, IsSpace)
    ensures r.Some? ==> r.value.lo < r.value.hi <= |s| && AllIn(s, r.value.lo, r.value.hi, IsDigit)
    ensures r.Some? ==> r.value.hi == |s| || !IsDigit(s[r.value.hi])
  {
    if !LitAt(s, e, "\", ID:") then None
    else
      var i := Span(s, e + 6, IsSpace);
      SpanRun(s, e + 6, IsSpace);
      var h := RunAt(s, i, IsDigit);
      if h.None? then None else Some(Group(i, h.value))
  }

  /** `, Billing Code:\s*` and the billing code after the campaign id ends at `h`. */
  function BillingAt(s: string, h: nat): (r: Option<(Group, FeeTail)>)
    ensures r.Some? ==> LitAt(s, h, ", Billing Code:") && AllIn(s, h + 15, r.value.0.lo, IsSpace)
    ensures r.Some? ==> CodeAt(s, r.value.0.lo) == Some((r.value.0.hi, r.value.1))
  {
    if !LitAt(s, h, ", Billing Code:") then None
    else
      var b := Span(s, h + 15, IsSpace);
      SpanRun(s, h + 15, IsSpace);
      var code := CodeAt(s, b);
      if code.None? then None else Some((Group(b, code.value.0), code.value.1))
  }

  /** The tail after the campaign name at `e`: its id, then the billing code and the fee part. */
  function CampaignTailAt(s: string, e: nat): (r: Option<CampaignTail>)
    ensures r.Some? ==> QuotedIdAt(s, e) == Some(r.value.campaignId)
    ensures r.Some? ==> BillingAt(s, r.value.campaignId.hi) == Some((r.value.code, r.value.fee))
  {
    var id := QuotedIdAt(s, e);
    if id.None? then None
    else
      var bill := BillingAt(s, id.value.hi);
      if bill.None? then None else Some(CampaignTail(id.value, bill.value.0, bill.value.1))
  }

  /** The recogniser the lazy campaign group tries at each end. */
  function CampaignTails(s: string): nat -> Option<CampaignTail> {
    (e: nat) => CampaignTailAt(s, e)
  }

  /** `(?P<campaign>.+?)` from `c`, with DOTALL: the first end, one character on at least, after which the rest matches. */
  function CampaignAt(s: string, c: nat): (r: Option<(nat, CampaignTail)>)
    ensures r.Some? ==> c < r.value.0 <= |s| && CampaignTailAt(s, r.value.0) == Some(r.value.1)
    ensures r.Some? ==> forall e | c < e < r.value.0 :: CampaignTailAt(s, e).None?
    ensures r.None? ==> forall e | c < e <= |s| :: CampaignTailAt(s, e).None?
  {
    assert forall e: nat :: CampaignTails(s)(e) == CampaignTailAt(s, e);
    First(c + 1, |s|, CampaignTails(s))
  }

  /** `\s*\n?"` at `i`: `\s*` takes the whole run, the newline among it, and the quote must follow. */
  function QuoteAt(s: string, i: nat): (r: Option<nat>)
    requires i <= |s|
    ensures r.Some? ==> AllIn(s, i, r.value, IsSpace) && r.value < |s| && s[r.value] == '"'
  {
    var w := Span(s, i, IsSpace);
    SpanRun(s, i, IsSpace);
    if w < |s| && s[w] == '"' then Some(w) else None
  }

  /** Where the advertiser's tail matches: its id, the dash, "Campaign:", the opening quote, the campaign, its tail. */
  datatype AdvertiserTail = AdvertiserTail(advertiserId: Group, dash: nat, camp: nat, quote: nat, campaign: Group, rest: CampaignTail)

  /** `\s*-\s*Campaign:\s*\n?"` after the advertiser id ends at `h`: the dash, "Campaign:", the opening quote. */
  function CampaignOpenAt(s: string, h: nat): (r: Option<(nat, nat, nat)>)
    ensures r.Some? ==> SepAt(s, h, "Campaign:") == Some((r.value.0, r.value.1)) && r.value.1 + 9 <= |s|
    ensures r.Some? ==> QuoteAt(s, r.value.1 + 9) == Some(r.value.2)
  {
    var sep := SepAt(s, h, "Campaign:");
    if sep.None? then None
    else
      var q := QuoteAt(s, sep.value.1 + 9);
      if q.None? then None else Some((sep.value.0, sep.value.1, q.value))
  }

  /** The tail after the advertiser name at `e`: its id, the opening of the campaign, and the campaign. */
  function AdvertiserTailAt(s: string, e: nat): (r: Option<AdvertiserTail>)
    ensures r.Some? ==> QuotedIdAt(s, e) == Some(r.value.advertiserId)
    ensures r.Some? ==> CampaignOpenAt(s, r.value.advertiserId.hi) == Some((r.value.dash, r.value.camp, r.value.quote))
    ensures r.Some? ==> r.value.campaign.lo == r.value.quote + 1 && CampaignAt(s, r.value.quote + 1) == Some((r.value.campaign.hi, r.value.rest))
  {
    AdvertiserTailWith(QuotedIdAt(s, e), (h: nat) => CampaignOpenAt(s, h), (c: nat) => CampaignAt(s, c))
  }

  /**
   * The advertiser tail from the match `id` of the advertiser id, the recogniser `open` of the campaign's
   * opening and the recogniser `camp` of the campaign: each part starts where the one before it ends.
   */
  function AdvertiserTailWith(id: Option<Group>, open: nat -> Option<(nat, nat, nat)>, camp: nat -> Option<(nat, CampaignTail)>)
    : (r: Option<AdvertiserTail>)
    ensures r.Some? ==> id == Some(r.value.advertiserId)
    ensures r.Some? ==> open(r.value.advertiserId.hi) == Some((r.value.dash, r.value.camp, r.value.quote))
    ensures r.Some? ==> r.value.campaign.lo == r.value.quote + 1 && camp(r.value.quote + 1) == Some((r.value.campaign.hi, r.value.rest))
  {
    if id.None? then None
    else
      var o := open(id.value.hi);
      if o.None? then None
      else
        var m := camp(o.value.2 + 1);
        if m.None? then None
        else Some(AdvertiserTail(id.value, o.value.0, o.value.1, o.value.2, Group(o.value.2 + 1, m.value.0), m.value.1))
  }

  /** The recogniser the lazy advertiser name tries at each end. */
  function AdvertiserTails(s: string): nat -> Option<AdvertiserTail> {
    (e: nat) => AdvertiserTailAt(s, e)
  }

  /** `(?P<advertiser_name>.+?)` from `a`, with DOTALL: the first end after which the rest of the pattern matches. */
  function NameAt(s: string, a: nat): (r: Option<(nat, AdvertiserTail)>)
    ensures r.Some? ==> a < r.value.0 <= |s| && AdvertiserTailAt(s, r.value.0) == Some(r.value.1)
    ensures r.Some? ==> forall e | a < e < r.value.0 :: AdvertiserTailAt(s, e).None?
    ensures r.None? ==> forall e | a < e <= |s| :: AdvertiserTailAt(s, e).None?
  {
    assert forall e: nat :: AdvertiserTails(s)(e) == AdvertiserTailAt(s, e);
    First(a + 1, |s|, AdvertiserTails(s))
  }

  /** A match of the line item pattern: whether `"?` took a quote, the advertiser name, and the rest. */
  datatype ItemPos = ItemPos(quoted: bool, name: Group, tail: AdvertiserTail)

  /** Where a match ends: after the amount. */
  function ItemEnd(m: ItemPos): nat {
    m.tail.rest.fee.amount.hi
  }

  /**
   * The line item pattern at `p`. The greedy `"?` tries to take a quote
   * first, and does without it only when the rest fails after the quote.
   */
  function ItemAt(s: string, p: nat): (r: Option<ItemPos>)
    ensures r.Some? ==> LitAt(s, p, "Advertiser: ") && r.value.name.lo == (if r.value.quoted then p + 13 else p + 12)
    ensures r.Some? ==> NameAt(s, r.value.name.lo) == Some((r.value.name.hi, r.value.tail))
    ensures r.Some? && r.value.quoted ==> p + 12 < |s| && s[p + 12] == '"'
    ensures r.Some? && !r.value.quoted && p + 12 < |s| && s[p + 12] == '"' ==> NameAt(s, p + 13).None?
    ensures r.None? && LitAt(s, p, "Advertiser: ") ==> NameAt(s, p + 12).None?
    ensures r.None? && LitAt(s, p, "Advertiser: ") && p + 12 < |s| && s[p + 12] == '"' ==> NameAt(s, p + 13).None?
  {
    if !LitAt(s, p, "Advertiser: ") then None
    else
      var q := p + 12;
      var withQuote := if q < |s| && s[q] == '"' then NameAt(s, q + 1) else None;
      if withQuote.Some? then Some(ItemPos(true, Group(q + 1, withQuote.value.0), withQuote.value.1))
      else
        var bare := NameAt(s, q);
        if bare.None? then None else Some(ItemPos(false, Group(q, bare.value.0), bare.value.1))
  }

  // ---------------------------------------------------------------------------
  // The groups of a match, and re.finditer
  // ---------------------------------------------------------------------------

  /** `g` is a non-empty group of `s` whose characters are all in class `P`. */
  predicate GroupIn(s: string, g: Group, P: char -> bool) {
    g.lo < g.hi <= |s| && AllIn(s, g.lo, g.hi, P)
  }

  /** The figures of a fee part that starts at `e`: in order, after `e`, each in its class. */
  predicate FeeShape(s: string, e: nat, f: FeeTail) {
    && e < f.price.lo && GroupIn(s, f.price, DigitOrDot)
    && f.price.hi < f.qty.lo && GroupIn(s, f.qty, DigitOrComma)
    && f.qty.hi < f.amount.lo && GroupIn(s, f.amount, DigitOrDot)
  }

  lemma FeeShapeOf(s: string, e: nat, f: FeeTail)
    requires FeeTailAt(s, e) == Some(f)
    ensures FeeShape(s, e, f)
  {
  }

  /** The groups of a campaign tail at `e`: the campaign id, the billing code, the figures. */
  predicate CampaignShape(s: string, e: nat, t: CampaignTail) {
    && e < t.campaignId.lo && GroupIn(s, t.campaignId, IsDigit)
    && t.campaignId.hi < t.code.lo && GroupIn(s, t.code, WordOrDash)
    && FeeShape(s, t.code.hi, t.fee)
  }

  lemma CampaignShapeOf(s: string, e: nat, t: CampaignTail)
    requires CampaignTailAt(s, e) == Some(t)
    ensures CampaignShape(s, e, t)
  {
    assert CodeAt(s, t.code.lo) == Some((t.code.hi, t.fee));
    FeeShapeOf(s, t.code.hi, t.fee);
  }

  /** The groups of an advertiser tail at `e`: the advertiser id, the campaign, and the campaign's tail. */
  predicate TailShape(s: string, e: nat, t: AdvertiserTail) {
    && e < t.advertiserId.lo && GroupIn(s, t.advertiserId, IsDigit)
    && t.advertiserId.hi < t.campaign.lo < t.campaign.hi <= |s|
    && CampaignShape(s, t.campaign.hi, t.rest)
  }

  lemma TailShapeOf(s: string, e: nat, t: AdvertiserTail)
    requires AdvertiserTailAt(s, e) == Some(t)
    ensures TailShape(s, e, t)
  {
    assert CampaignOpenAt(s, t.advertiserId.hi) == Some((t.dash, t.camp, t.quote));
    assert CampaignTailAt(s, t.campaign.hi) == Some(t.rest);
    CampaignShapeOf(s, t.campaign.hi, t.rest);
  }

  /** The groups of a match at `p`, each non-empty, in the pattern's order and in its class. */
  predicate ItemShape(s: string, p: nat, m: ItemPos) {
    p < m.name.lo < m.name.hi <= |s| && TailShape(s, m.name.hi, m.tail)
  }

  lemma ItemShapeOf(s: string, p: nat)
    requires ItemAt(s, p).Some?
    ensures ItemShape(s, p, ItemAt(s, p).value) && p < ItemEnd(ItemAt(s, p).value) <= |s|
  {
    var m := ItemAt(s, p).value;
    assert NameAt(s, m.name.lo) == Some((m.name.hi, m.tail));
    TailShapeOf(s, m.name.hi, m.tail);
  }

  /** The recogniser `re.finditer` tries at each position: the end of the match and its groups. */
  function ItemAts(s: string): nat -> Option<(nat, ItemPos)> {
    (p: nat) => if ItemAt(s, p).Some? then Some((ItemEnd(ItemAt(s, p).value), ItemAt(s, p).value)) else None
  }

  /** A match always ends after it starts, so `re.finditer` moves on. */
  lemma ItemAtsAdvance(s: string)
    ensures forall p: nat :: ItemAts(s)(p).Some? ==> p < ItemAts(s)(p).value.0 <= |s|
  {
    forall p: nat | ItemAts(s)(p).Some? ensures p < ItemAts(s)(p).value.0 <= |s| {
      ItemShapeOf(s, p);
    }
  }

  /**
   * `item_block_pattern.finditer(detail_text)`: each match with where it
   * starts and ends, left to right and without overlap.
   */
  function FindItems(s: string): (r: seq<(nat, nat, ItemPos)>)
    ensures forall k | 0 <= k < |r| :: ItemAt(s, r[k].0) == Some(r[k].2) && r[k].1 == ItemEnd(r[k].2)
    ensures forall k | 0 <= k < |r| - 1 :: r[k].1 <= r[k + 1].0
  {
    ItemAtsAdvance(s);
    FindAll(s, 0, ItemAts(s))
  }

  /** Before the first match, and between two matches, the pattern matches nowhere; with no match it matches nowhere at all. */
  lemma FindItemsGaps(s: string, k: nat)
    requires k < |FindItems(s)|
    ensures var r := FindItems(s);
      forall p | (if k == 0 then 0 else r[k - 1].1) <= p < r[k].0 :: ItemAt(s, p).None?
  {
    ItemAtsAdvance(s);
    FindAllGaps(s, 0, ItemAts(s), k);
    var r := FindItems(s);
    forall p | (if k == 0 then 0 else r[k - 1].1) <= p < r[k].0 ensures ItemAt(s, p).None? {
      assert ItemAts(s)(p).None?;
    }
  }

  lemma FindItemsNone(s: string)
    requires FindItems(s) == []
    ensures forall p | 0 <= p <= |s| :: ItemAt(s, p).None?
  {
    ItemAtsAdvance(s);
    forall p | 0 <= p <= |s| ensures ItemAt(s, p).None? {
      assert ItemAts(s)(p).None?;
    }
  }

  // ---------------------------------------------------------------------------
  // Rows
  // ---------------------------------------------------------------------------

  /** A cell of the two numeric-or-text columns: text, a `float`, or an `int`. */
  datatype Cell = Text(text: string) | Number(number: Decimal) | Count(count: int)

  /** A row of the CM360 table, one field per column. */
  datatype Cm360Row = Cm360Row(
    invoiceType: string, invoiceNum: string, month: string,
    advertiserName: string, advertiserId: string,
    campaign: string, campaignId: string, billingCode: string,
    fee: string, uom: string, unitPrice: Cell, quantity: Cell, amount: Cell)

  const InvoiceType := "CM360"

  /** The summary row: the header fields, "SUMMARY" placeholders, and the total as it was matched. */
  function SummaryRowOf(h: Header): (r: Cm360Row)
    ensures r.invoiceType == InvoiceType && r.invoiceNum == h.invoiceNum && r.month == h.month && r.advertiserId == h.advertiserId
    ensures r.fee == "TOTAL" && r.uom == "Total" && r.amount == Text(h.total)
  {
    Cm360Row(InvoiceType, h.invoiceNum, h.month, "SUMMARY", h.advertiserId, "SUMMARY", "SUMMARY", "SUMMARY",
      "TOTAL", "Total", Text(""), Text(""), Text(h.total))
  }

  /** A run of digits and points has only characters `float` is modelled on. */
  lemma DotRunNumeral(s: string, g: Group)
    requires GroupIn(s, g, DigitOrDot)
    ensures forall k | 0 <= k < |Slice(s, g)| :: NumeralChar(Slice(s, g)[k])
  {
    assert forall k | 0 <= k < |Slice(s, g)| :: Slice(s, g)[k] == s[g.lo + k];
  }

  /** `float(group)` of a `[\d\.]+` group: it converts exactly when it is a decimal literal. */
  function DecimalOf(s: string, g: Group): (r: Option<Decimal>)
    requires GroupIn(s, g, DigitOrDot)
    ensures r.Some? <==> FloatLiteral(Slice(s, g))
  {
    DotRunNumeral(s, g);
    ParseDecimal(Slice(s, g))
  }

  /**
   * `int(group.replace(",", ""))` of a `[\d,]+` group: it converts exactly
   * when a digit is left, and then to the value of the digits.
   */
  function QuantityOf(s: string, g: Group): (r: Option<int>)
    requires GroupIn(s, g, DigitOrComma)
    ensures r.Some? <==> RemoveCommas(Slice(s, g)) != []
    ensures AllDigits(RemoveCommas(Slice(s, g)))
    ensures r.Some? ==> r.value == DigitsValue(RemoveCommas(Slice(s, g))) && r.value >= 0
  {
    DigitRun(s, g.lo, g.hi);
    var t := RemoveCommas(Slice(s, g));
    assert AllDigits(t);
    assert t != [] ==> !IsSign(t[0]);
    ParseInt(t)
  }

  /** The header fields every row repeats. */
  predicate CarriesHeader(row: Cm360Row, h: Header) {
    row.invoiceType == InvoiceType && row.invoiceNum == h.invoiceNum && row.month == h.month
  }

  /**
   * The row of a match at `p`: the names stripped, the ids and the code as
   * matched, "CPM" for fee and unit, and the three figures converted. A
   * figure that does not convert raises `ValueError`.
   */
  function ItemRowOf(s: string, p: nat, m: ItemPos, h: Header): (r: Result<Cm360Row>)
    requires ItemShape(s, p, m)
    ensures var f := m.tail.rest.fee;
      r.Ok? <==> DecimalOf(s, f.price).Some? && QuantityOf(s, f.qty).Some? && DecimalOf(s, f.amount).Some?
    ensures r.Err? ==> r.error == "ValueError"
    ensures r.Ok? ==> CarriesHeader(r.value, h) && r.value.fee == "CPM" && r.value.uom == "CPM"
    ensures r.Ok? ==> r.value.advertiserName == Strip(Slice(s, m.name)) && r.value.campaign == Strip(Slice(s, m.tail.campaign))
    ensures r.Ok? ==> r.value.advertiserId == Slice(s, m.tail.advertiserId) && r.value.campaignId == Slice(s, m.tail.rest.campaignId)
    ensures r.Ok? ==> r.value.billingCode == Slice(s, m.tail.rest.code)
    ensures r.Ok? ==> var f := m.tail.rest.fee;
      && r.value.unitPrice == Number(DecimalOf(s, f.price).value)
      && r.value.quantity == Count(QuantityOf(s, f.qty).value)
      && r.value.amount == Number(DecimalOf(s, f.amount).value)
  {
    var f := m.tail.rest.fee;
    var price := DecimalOf(s, f.price);
    var qty := QuantityOf(s, f.qty);
    var amount := DecimalOf(s, f.amount);
    if price.None? || qty.None? || amount.None? then Err("ValueError")
    else
      Ok(Cm360Row(InvoiceType, h.invoiceNum, h.month,
        Strip(Slice(s, m.name)), Slice(s, m.tail.advertiserId),
        Strip(Slice(s, m.tail.campaign)), Slice(s, m.tail.rest.campaignId), Slice(s, m.tail.rest.code),
        "CPM", "CPM", Number(price.value), Count(qty.value), Number(amount.value)))
  }

  /** The ids of a row are digits and its billing code is word characters and dashes, as the pattern captured them. */
  lemma ItemRowFields(s: string, p: nat, m: ItemPos, h: Header)
    requires ItemShape(s, p, m) && ItemRowOf(s, p, m, h).Ok?
    ensures var row := ItemRowOf(s, p, m, h).value;
      && row.advertiserId != [] && AllIn(row.advertiserId, 0, |row.advertiserId|, IsDigit)
      && row.campaignId != [] && AllIn(row.campaignId, 0, |row.campaignId|, IsDigit)
      && row.billingCode != [] && AllIn(row.billingCode, 0, |row.billingCode|, WordOrDash)
      && Stripped(row.advertiserName) && Stripped(row.campaign)
  {
    var t := m.tail;
    SliceAllIn(s, t.advertiserId.lo, t.advertiserId.hi, IsDigit);
    SliceAllIn(s, t.rest.campaignId.lo, t.rest.campaignId.hi, IsDigit);
    SliceAllIn(s, t.rest.code.lo, t.rest.code.hi, WordOrDash);
  }

  /** A unit price or an amount with two points, such as "1.2.3", does not convert. */
  lemma TwoPointsFail(s: string, g: Group, i: nat, j: nat)
    requires GroupIn(s, g, DigitOrDot) && g.lo <= i < j < g.hi && s[i] == '.' && s[j] == '.'
    ensures DecimalOf(s, g).None?
  {
    DotRunNumeral(s, g);
    var t := Slice(s, g);
    assert t[i - g.lo] == '.' && t[j - g.lo] == '.';
    ParseDecimalTwoPoints(t, i - g.lo, j - g.lo);
  }

  /**
   * The row of one entry of `FindItems`. Every entry of `FindItems` is a
   * match at its start, so the second branch is never taken there.
   */
  function MatchRows(s: string, h: Header): ((nat, nat, ItemPos)) -> Result<Cm360Row> {
    (x: (nat, nat, ItemPos)) =>
      if ItemAt(s, x.0) == Some(x.2) then ItemShapeOf(s, x.0); ItemRowOf(s, x.0, x.2, h)
      else Err("ValueError")
  }

  /** The conversion of one match raises only `ValueError`, and otherwise gives a "CPM" row with the header. */
  lemma MatchRowsSpec(s: string, h: Header, x: (nat, nat, ItemPos))
    requires ItemAt(s, x.0) == Some(x.2)
    ensures ItemShape(s, x.0, x.2) && MatchRows(s, h)(x) == ItemRowOf(s, x.0, x.2, h)
    ensures MatchRows(s, h)(x).Err? ==> MatchRows(s, h)(x).error == "ValueError"
    ensures MatchRows(s, h)(x).Ok? ==> var row := MatchRows(s, h)(x).value;
      CarriesHeader(row, h) && row.fee == "CPM" && row.uom == "CPM"
  {
    ItemShapeOf(s, x.0);
  }

  /**
   * The rows of the matches in order; the first figure that does not
   * convert ends the loop with its exception.
   */
  function RowsOf(s: string, h: Header): (r: Result<seq<Cm360Row>>)
    ensures r.Ok? ==> |r.value| == |FindItems(s)|
  {
    Traverse(FindItems(s), MatchRows(s, h))
  }

  /**
   * The loop succeeds exactly when every match converts, and then gives one
   * row per match, in order.
   */
  lemma RowsOfSpec(s: string, h: Header)
    ensures var ms, f := FindItems(s), MatchRows(s, h);
      RowsOf(s, h).Ok? <==> forall k | 0 <= k < |ms| :: f(ms[k]).Ok?
    ensures var ms, f := FindItems(s), MatchRows(s, h);
      RowsOf(s, h).Ok? ==> forall k | 0 <= k < |ms| :: RowsOf(s, h).value[k] == f(ms[k]).value
  {
    TraverseSpec(FindItems(s), MatchRows(s, h));
  }

  /** A loop that fails raises `ValueError`. */
  lemma RowsOfError(s: string, h: Header)
    ensures RowsOf(s, h).Err? ==> RowsOf(s, h).error == "ValueError"
  {
    var ms, f := FindItems(s), MatchRows(s, h);
    TraverseSpec(ms, f);
    if RowsOf(s, h).Err? {
      var k :| 0 <= k < |ms| && f(ms[k]).Err? && RowsOf(s, h).error == f(ms[k]).error;
      MatchRowsSpec(s, h, ms[k]);
    }
  }

  /** Every detail row repeats the header and has "CPM" for fee and unit. */
  lemma RowsCarryHeader(s: string, h: Header)
    requires RowsOf(s, h).Ok?
    ensures forall row | row in RowsOf(s, h).value :: CarriesHeader(row, h) && row.fee == "CPM" && row.uom == "CPM"
  {
    var ms, f := FindItems(s), MatchRows(s, h);
    TraverseSpec(ms, f);
    var rows := RowsOf(s, h).value;
    forall row | row in rows ensures CarriesHeader(row, h) && row.fee == "CPM" && row.uom == "CPM" {
      var k :| 0 <= k < |rows| && rows[k] == row;
      MatchRowsSpec(s, h, ms[k]);
    }
  }

  /** The `for match in finditer(...)` loop: one row per match, stopping at the first `ValueError`. */
  method Details(s: string, h: Header) returns (r: Result<seq<Cm360Row>>)
    ensures r == RowsOf(s, h)
  {
    var ms := FindItems(s);
    ghost var f := MatchRows(s, h);
    var rows: seq<Cm360Row> := [];
    var i := 0;
    assert ms[..0] == [];
    while i < |ms|
      invariant 0 <= i <= |ms|
      invariant Traverse(ms[..i], f) == Ok(rows)
    {
      var x := ms[i];
      MatchRowsSpec(s, h, x);
      var row := ItemRowOf(s, x.0, x.2, h);
      TraverseStep(ms, i, f);
      if row.Err? {
        assert Traverse(ms[..i + 1], f) == Err(row.error);
        TraversePrefixErr(ms, i + 1, f);
        assert Traverse(ms, f) == Err(row.error);
        return Err(row.error);
      }
      rows := rows + [row.value];
      i := i + 1;
    }
    assert ms[..i] == ms;
    assert Traverse(ms, f) == Ok(rows);
    r := Ok(rows);
  }

  /**
   * The CM360 extractor: the text is flattened, the header is searched, and
   * the result is no summary rows and, as details, the header's summary row
   * followed by one row per line item; a figure that does not convert
   * raises `ValueError` out of the extractor.
   */
  method Extract(detailText: Block) returns (r: Result<(seq<Cm360Row>, seq<Cm360Row>)>)
    ensures var s := Flatten(detailText);
      r.Ok? <==> RowsOf(s, HeaderOf(s)).Ok?
    ensures var s := Flatten(detailText);
      r.Ok? ==> r.value == ([], [SummaryRowOf(HeaderOf(s))] + RowsOf(s, HeaderOf(s)).value)
    ensures r.Err? ==> r.error == "ValueError"
  {
    var s := Flatten(detailText);
    var h := HeaderOf(s);
    var rows := Details(s, h);
    RowsOfError(s, h);
    if rows.Err? {
      return Err(rows.error);
    }
    r := Ok(([], [SummaryRowOf(h)] + rows.value));
  }
}
