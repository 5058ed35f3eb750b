/**
 * The Google Ads extractor: a guard on the joined page text, then one pass
 * over every line of every page that carries the account context forward
 * and emits a detail row for each line that reads as a click or impression
 * count with its cost.
 */
module GoogleAds {
  import opened Options
  import opened Text
  import opened Scan
  import opened Patterns
  import opened Numbers
  import opened Parser

  // ---------------------------------------------------------------------------
  // The account patterns, each anchored at the start of the line
  // ---------------------------------------------------------------------------

  /** `Account ID: (\S+)` at the start of `line`: the greedy run of non-space characters. */
  function AccountIdOf(line: string): (r: Option<string>)
    ensures r.Some? <==> LitAt(line, 0, "Account ID: ") && 12 < |line| && NotSpace(line[12])
    ensures r.Some? ==> var e := 12 + |r.value|;
      && e <= |line| && r.value == line[12..e] && AllIn(line, 12, e, NotSpace)
      && (e == |line| || !NotSpace(line[e]))
  {
    if !LitAt(line, 0, "Account ID: ") then None
    else
      match RunAt(line, 12, NotSpace)
      case None => None
      case Some(e) => Some(line[12..e])
  }

  /** `<lit>(.+)` at the start of `line`: the rest of the line after the label, when there is any. */
  function RestAfter(line: string, lit: string): (r: Option<string>)
    ensures r.Some? <==> LitAt(line, 0, lit) && |lit| < |line| && NotNewline(line[|lit|])
    ensures r.Some? ==> var e := |lit| + |r.value|;
      && e <= |line| && r.value == line[|lit|..e] && AllIn(line, |lit|, e, NotNewline)
      && (e == |line| || line[e] == '\n')
  {
    if !LitAt(line, 0, lit) then None
    else
      match RunAt(line, |lit|, NotNewline)
      case None => None
      case Some(e) => Some(line[|lit|..e])
  }

  /** `Account: (.+)`. */
  function AccountNameOf(line: string): Option<string> {
    RestAfter(line, "Account: ")
  }

  /** `Account budget: (.+)`. */
  function AccountBudgetOf(line: string): Option<string> {
    RestAfter(line, "Account budget: ")
  }

  /** At most one of the three account patterns matches a line: their labels part before the colon. */
  lemma AccountPatternsExclusive(line: string)
    ensures !(AccountIdOf(line).Some? && AccountNameOf(line).Some?)
    ensures !(AccountIdOf(line).Some? && AccountBudgetOf(line).Some?)
    ensures !(AccountNameOf(line).Some? && AccountBudgetOf(line).Some?)
  {
    if LitAt(line, 0, "Account: ") {
      assert line[7] == line[0..9][7] == ':';
    }
    if LitAt(line, 0, "Account ID: ") {
      assert line[8] == line[0..12][8] == 'I';
    }
    if LitAt(line, 0, "Account budget: ") {
      assert line[7] == line[0..16][7] == ' ';
      assert line[8] == line[0..16][8] == 'b';
    }
  }

  // ---------------------------------------------------------------------------
  // The detail pattern (.+?)\s+(\d+)\s+(Clicks|Impressions)\s+([\d,.]+)
  // ---------------------------------------------------------------------------

  /** The description ends at `desc`; the other three groups are slices of the line. */
  datatype DetailPos = DetailPos(desc: nat, qty: Group, uom: Group, amount: Group)

  /** `(Clicks|Impressions)` at `u`: where the unit ends. */
  function UomAt(s: string, u: nat): (r: Option<nat>)
    ensures r.Some? ==> u <= r.value <= |s| && (s[u..r.value] == "Clicks" || s[u..r.value] == "Impressions")
  {
    if LitAt(s, u, "Clicks") then Some(u + 6)
    else if LitAt(s, u, "Impressions") then Some(u + 11)
    else None
  }

  /** Any way `\s+(\d+)\s+(Clicks|Impressions)\s+([\d,.]+)` can match from `e`. */
  predicate DetailTailParse(s: string, e: nat, m: DetailPos) {
    && m.desc == e
    && e < m.qty.lo && AllIn(s, e, m.qty.lo, IsSpace)
    && m.qty.lo < m.qty.hi && AllIn(s, m.qty.lo, m.qty.hi, IsDigit)
    && m.qty.hi < m.uom.lo && AllIn(s, m.qty.hi, m.uom.lo, IsSpace)
    && UomAt(s, m.uom.lo) == Some(m.uom.hi)
    && m.uom.hi < m.amount.lo && AllIn(s, m.uom.hi, m.amount.lo, IsSpace)
    && m.amount.lo < m.amount.hi && AllIn(s, m.amount.lo, m.amount.hi, DigitCommaOrDot)
  }

  /** The match from `e`, each greedy run as long as it goes. */
  function DetailTailAt(s: string, e: nat): (r: Option<DetailPos>)
    ensures r.Some? ==> DetailTailParse(s, e, r.value)
    ensures r.Some? ==> r.value.amount.hi == |s| || !DigitCommaOrDot(s[r.value.amount.hi])
  {
    match RunAt(s, e, IsSpace)
    case None => None
    case Some(q0) =>
      match RunAt(s, q0, IsDigit)
      case None => None
      case Some(q1) =>
        match RunAt(s, q1, IsSpace)
        case None => None
        case Some(u0) =>
          match UomAt(s, u0)
          case None => None
          case Some(u1) =>
            match RunAt(s, u1, IsSpace)
            case None => None
            case Some(a0) =>
              match RunAt(s, a0, DigitCommaOrDot)
              case None => None
              case Some(a1) => Some(DetailPos(e, Group(q0, q1), Group(u0, u1), Group(a0, a1)))
  }

  /**
   * Every match from `e` is the one `DetailTailAt` finds, up to where the
   * last run stops: no run before it can give a character back.
   */
  lemma DetailTailAtComplete(s: string, e: nat, m: DetailPos)
    requires DetailTailParse(s, e, m)
    ensures DetailTailAt(s, e).Some?
    ensures var r := DetailTailAt(s, e).value;
      r.qty == m.qty && r.uom == m.uom && r.amount.lo == m.amount.lo && m.amount.hi <= r.amount.hi
  {
    RunAtComplete(s, e, m.qty.lo, IsSpace);
    RunAtComplete(s, m.qty.lo, m.qty.hi, IsDigit);
    assert s[m.uom.lo] == s[m.uom.lo..m.uom.hi][0];
    RunAtComplete(s, m.qty.hi, m.uom.lo, IsSpace);
    RunAtComplete(s, m.uom.hi, m.amount.lo, IsSpace);
    RunWithin(s, m.amount.lo, m.amount.hi, DigitCommaOrDot);
  }

  /**
   * The whole detail pattern, anchored at the start of the line: the lazy
   * description takes the first end, at least one character in and before
   * any newline, after which the rest matches.
   */
  function DetailOf(line: string): (r: Option<DetailPos>)
    ensures r.Some? ==> 1 <= r.value.desc && AllIn(line, 0, r.value.desc, NotNewline)
    ensures r.Some? ==> DetailTailAt(line, r.value.desc) == Some(r.value)
    ensures r.Some? ==> forall e | 1 <= e < r.value.desc :: DetailTailAt(line, e).None?
    ensures r.None? ==> forall e | 1 <= e <= LazyEndMax(line, 0, false) :: DetailTailAt(line, e).None?
  {
    var at: nat -> Option<DetailPos> := (e: nat) => DetailTailAt(line, e);
    var hi := LazyEndMax(line, 0, false);
    var f := First(1, hi, at);
    assert f.Some? ==> at(f.value.0) == DetailTailAt(line, f.value.0);
    assert f.Some? ==> forall e | 1 <= e < f.value.0 :: at(e) == DetailTailAt(line, e);
    assert f.None? ==> forall e | 1 <= e <= hi :: at(e) == DetailTailAt(line, e);
    match f
    case None => None
    case Some((e, m)) => Some(m)
  }

  /** Any way the detail pattern can match the line makes `DetailOf` find a match, its description no longer. */
  lemma DetailOfComplete(line: string, m: DetailPos)
    requires 1 <= m.desc && AllIn(line, 0, m.desc, NotNewline) && DetailTailParse(line, m.desc, m)
    ensures DetailOf(line).Some? && DetailOf(line).value.desc <= m.desc
  {
    DetailTailAtComplete(line, m.desc, m);
    RunWithin(line, 0, m.desc, NotNewline);
  }

  // ---------------------------------------------------------------------------
  // Rows
  // ---------------------------------------------------------------------------

  /** What the caller passes along with the pages. */
  datatype Meta = Meta(invoiceNum: string, filename: string, month: string)

  /** The account context in force: each field is `None` until its pattern first matches. */
  datatype Account = Account(id: Option<string>, name: Option<string>, budget: Option<string>)

  const NoAccount := Account(None, None, None)

  /** One detail row; the account fields are Python's `None` where no account line has been seen. */
  datatype AdsRow = AdsRow(
    invoiceType: string, invoiceNum: string, month: string, filename: string, rowType: string,
    accountId: Option<string>, accountName: Option<string>, accountBudget: Option<string>,
    description: string, quantity: int, uom: string, amount: Decimal)

  /** The fixed columns every detail row carries. */
  predicate RowShape(row: AdsRow, meta: Meta) {
    && row.invoiceType == "Google Ads" && row.rowType == "detail"
    && row.invoiceNum == meta.invoiceNum && row.month == meta.month && row.filename == meta.filename
    && (row.uom == "Clicks" || row.uom == "Impressions")
    && row.quantity >= 0
  }

  /** `int(qty)`: the captured digits always convert. */
  function QuantityOf(line: string, m: DetailPos): (r: int)
    requires m.qty.lo < m.qty.hi && AllIn(line, m.qty.lo, m.qty.hi, IsDigit)
    ensures r >= 0 && ParseInt(line[m.qty.lo..m.qty.hi]) == Some(r)
  {
    var t := line[m.qty.lo..m.qty.hi];
    assert AllDigits(t) by {
      forall k | 0 <= k < |t| ensures IsDigit(t[k]) { assert t[k] == line[m.qty.lo + k]; }
    }
    DigitsValue(t)
  }

  /** `float(amount.replace(",", ""))`: `None` where it raises `ValueError`, as on `1.2.3` or `,`. */
  function AmountOf(line: string, m: DetailPos): (r: Option<Decimal>)
    requires AllIn(line, m.amount.lo, m.amount.hi, DigitCommaOrDot)
    ensures r.Some? <==> FloatLiteral(RemoveCommas(line[m.amount.lo..m.amount.hi]))
  {
    var t := line[m.amount.lo..m.amount.hi];
    assert forall k | 0 <= k < |t| :: NumeralChar(t[k]) || t[k] == ',' by {
      forall k | 0 <= k < |t| ensures NumeralChar(t[k]) || t[k] == ',' {
        assert t[k] == line[m.amount.lo + k];
      }
    }
    RemoveCommasKeepsClass(t, NumeralChar);
    ParseDecimal(RemoveCommas(t))
  }

  /** The row a detail match makes under the account `acc`; `None` where the amount does not convert. */
  function RowOf(line: string, m: DetailPos, acc: Account, meta: Meta): (r: Option<AdsRow>)
    requires DetailTailParse(line, m.desc, m)
    ensures r.Some? <==> AmountOf(line, m).Some?
    ensures r.Some? ==> RowShape(r.value, meta)
    ensures r.Some? ==> r.value.accountId == acc.id && r.value.accountName == acc.name && r.value.accountBudget == acc.budget
    ensures r.Some? ==> r.value.description == Strip(line[..m.desc]) && r.value.uom == Slice(line, m.uom)
    ensures r.Some? ==> ParseInt(Slice(line, m.qty)) == Some(r.value.quantity)
  {
    match AmountOf(line, m)
    case None => None
    case Some(amount) =>
      Some(AdsRow("Google Ads", meta.invoiceNum, meta.month, meta.filename, "detail",
        acc.id, acc.name, acc.budget,
        Strip(line[..m.desc]), QuantityOf(line, m), line[m.uom.lo..m.uom.hi], amount))
  }

  /** A detail line whose amount does not convert: the extractor raises there. */
  predicate BadAmount(line: string) {
    match DetailOf(line)
    case None => false
    case Some(m) => AmountOf(line, m).None?
  }

  // ---------------------------------------------------------------------------
  // The pass over the lines
  // ---------------------------------------------------------------------------

  /** A match replaces the value in force; no match keeps it. */
  function Newer(x: Option<string>, current: Option<string>): Option<string> {
    if x.Some? then x else current
  }

  /** The three `if ..._match:` updates of one line. */
  function Update(acc: Account, line: string): Account {
    Account(Newer(AccountIdOf(line), acc.id), Newer(AccountNameOf(line), acc.name), Newer(AccountBudgetOf(line), acc.budget))
  }

  /** A line that matches one of the account patterns changes that field only, to the group it matched. */
  lemma UpdateOneField(acc: Account, line: string)
    ensures AccountIdOf(line).Some? ==> Update(acc, line) == acc.(id := AccountIdOf(line))
    ensures AccountNameOf(line).Some? ==> Update(acc, line) == acc.(name := AccountNameOf(line))
    ensures AccountBudgetOf(line).Some? ==> Update(acc, line) == acc.(budget := AccountBudgetOf(line))
  {
    AccountPatternsExclusive(line);
  }

  datatype State = State(account: Account, rows: seq<AdsRow>)

  /** One line: update the account, then append the row of a detail match, built with the updated account. */
  function Step(st: State, line: string, meta: Meta): Result<State> {
    var acc := Update(st.account, line);
    match DetailOf(line)
    case None => Ok(State(acc, st.rows))
    case Some(m) =>
      match RowOf(line, m, acc, meta)
      case None => Err("ValueError")
      case Some(row) => Ok(State(acc, st.rows + [row]))
  }

  /** The pass over `lines` in order, stopping at the first line that raises. */
  function Run(lines: seq<string>, meta: Meta): Result<State> {
    if lines == [] then Ok(State(NoAccount, []))
    else
      match Run(lines[..|lines| - 1], meta)
      case Err(e) => Err(e)
      case Ok(st) => Step(st, lines[|lines| - 1], meta)
  }

  /** The index of the last line `f` matches, or -1 when none does. */
  function LastHit(lines: seq<string>, f: string -> Option<string>): (r: int)
    ensures -1 <= r < |lines|
    ensures r >= 0 ==> f(lines[r]).Some?
    ensures forall k | r < k < |lines| :: f(lines[k]).None?
  {
    if lines == [] then -1
    else if f(lines[|lines| - 1]).Some? then |lines| - 1
    else LastHit(lines[..|lines| - 1], f)
  }

  /** What the last matching line captured, or `None`. */
  function Latest(lines: seq<string>, f: string -> Option<string>): Option<string> {
    var j := LastHit(lines, f);
    if j < 0 then None else f(lines[j])
  }

  /** The account context after `lines`: each field from the last line its own pattern matched. */
  function AccountAfter(lines: seq<string>): Account {
    Account(Latest(lines, AccountIdOf), Latest(lines, AccountNameOf), Latest(lines, AccountBudgetOf))
  }

  lemma LatestSnoc(lines: seq<string>, line: string, f: string -> Option<string>)
    ensures Latest(lines + [line], f) == Newer(f(line), Latest(lines, f))
  {
    assert (lines + [line])[..|lines|] == lines;
  }

  /** Updating with one more line is the account of the longer prefix. */
  lemma AccountAfterSnoc(lines: seq<string>, line: string)
    ensures AccountAfter(lines + [line]) == Update(AccountAfter(lines), line)
  {
    LatestSnoc(lines, line, AccountIdOf);
    LatestSnoc(lines, line, AccountNameOf);
    LatestSnoc(lines, line, AccountBudgetOf);
  }

  /** The row, if any, line `line` contributes under the account `acc`. */
  function LineRows(line: string, acc: Account, meta: Meta): (r: seq<AdsRow>)
    ensures |r| <= 1 && forall k | 0 <= k < |r| :: RowShape(r[k], meta)
  {
    match DetailOf(line)
    case None => []
    case Some(m) =>
      match RowOf(line, m, acc, meta)
      case None => []
      case Some(row) => [row]
  }

  /**
   * The rows as a reference: each detail line in order, built with the
   * account of the lines up to and including it.
   */
  function RowsUpTo(lines: seq<string>, meta: Meta): seq<AdsRow> {
    if lines == [] then []
    else RowsUpTo(lines[..|lines| - 1], meta) + LineRows(lines[|lines| - 1], AccountAfter(lines), meta)
  }

  /** Some line of `lines` is a detail line whose amount does not convert. */
  predicate SomeBadAmount(lines: seq<string>) {
    exists j | 0 <= j < |lines| :: BadAmount(lines[j])
  }

  /** A step raises exactly on a detail line whose amount does not convert, whatever the state. */
  lemma StepErr(st: State, line: string, meta: Meta)
    ensures Step(st, line, meta).Err? <==> BadAmount(line)
  {
  }

  /** A step that does not raise updates the account and appends the line's row under it. */
  lemma StepOk(st: State, line: string, meta: Meta)
    requires Step(st, line, meta).Ok?
    ensures Step(st, line, meta).value == State(Update(st.account, line), st.rows + LineRows(line, Update(st.account, line), meta))
  {
  }

  lemma RunSnoc(lines: seq<string>, line: string, meta: Meta)
    ensures Run(lines + [line], meta) == if Run(lines, meta).Err? then Run(lines, meta) else Step(Run(lines, meta).value, line, meta)
  {
    assert (lines + [line])[..|lines|] == lines;
  }

  /** While nothing raises, the pass holds the account of the last matching lines and the reference rows. */
  lemma {:induction false} RunState(lines: seq<string>, meta: Meta)
    requires Run(lines, meta).Ok?
    ensures Run(lines, meta).value == State(AccountAfter(lines), RowsUpTo(lines, meta))
  {
    if lines != [] {
      var init := lines[..|lines| - 1];
      var line := lines[|lines| - 1];
      assert init + [line] == lines;
      RunSnoc(init, line, meta);
      RunState(init, meta);
      StepOk(Run(init, meta).value, line, meta);
      AccountAfterSnoc(init, line);
    }
  }

  /** Some line of `lines + [line]` has `P` exactly when some line of `lines` has it or `line` has it. */
  lemma SomeLineSnoc(lines: seq<string>, line: string, P: string -> bool)
    ensures (exists j | 0 <= j < |lines + [line]| :: P((lines + [line])[j])) <==> (exists j | 0 <= j < |lines| :: P(lines[j])) || P(line)
  {
    var all := lines + [line];
    if exists j | 0 <= j < |lines| :: P(lines[j]) {
      var j :| 0 <= j < |lines| && P(lines[j]);
      assert all[j] == lines[j];
    }
    if P(line) {
      assert all[|lines|] == line;
    }
  }

  /** The pass raises exactly when some detail line's amount does not convert. */
  lemma {:induction false} RunErrIff(lines: seq<string>, meta: Meta)
    ensures Run(lines, meta).Err? <==> SomeBadAmount(lines)
  {
    if lines != [] {
      var init := lines[..|lines| - 1];
      var line := lines[|lines| - 1];
      assert init + [line] == lines;
      RunSnoc(init, line, meta);
      RunErrIff(init, meta);
      if Run(init, meta).Ok? {
        StepErr(Run(init, meta).value, line, meta);
      }
      SomeLineSnoc(init, line, BadAmount);
    }
  }

  /** Each line adds at most one row, and every row carries the fixed columns. */
  lemma {:induction false} RunRowsShape(lines: seq<string>, meta: Meta)
    requires Run(lines, meta).Ok?
    ensures |Run(lines, meta).value.rows| <= |lines|
    ensures forall k | 0 <= k < |Run(lines, meta).value.rows| :: RowShape(Run(lines, meta).value.rows[k], meta)
  {
    if lines != [] {
      var init := lines[..|lines| - 1];
      var line := lines[|lines| - 1];
      assert init + [line] == lines;
      RunSnoc(init, line, meta);
      RunRowsShape(init, meta);
      var st := Run(init, meta).value;
      StepOk(st, line, meta);
      var extra := LineRows(line, Update(st.account, line), meta);
      var rows := Run(lines, meta).value.rows;
      assert rows == st.rows + extra;
      assert forall k | |st.rows| <= k < |rows| :: rows[k] == extra[k - |st.rows|];
    }
  }

  /** Once the pass has raised, later lines do not matter. */
  lemma {:induction false} RunErrSticks(lines: seq<string>, more: seq<string>, meta: Meta)
    requires Run(lines, meta).Err?
    ensures Run(lines + more, meta) == Run(lines, meta)
  {
    if more == [] {
      assert lines + more == lines;
    } else {
      var m0 := more[..|more| - 1];
      assert lines + more == (lines + m0) + [more[|more| - 1]];
      RunErrSticks(lines, m0, meta);
      RunSnoc(lines + m0, more[|more| - 1], meta);
    }
  }

  // ---------------------------------------------------------------------------
  // extract_google_ads
  // ---------------------------------------------------------------------------

  /** The lines `split` makes of every page, page after page. */
  function Lines(pages: Pages, split: string -> seq<string>): seq<string> {
    if pages == [] then [] else Lines(pages[..|pages| - 1], split) + split(pages[|pages| - 1])
  }

  lemma {:induction false} LinesAppend(a: Pages, b: Pages, split: string -> seq<string>)
    ensures Lines(a + b, split) == Lines(a, split) + Lines(b, split)
  {
    if b == [] {
      assert a + b == a;
    } else {
      var b0 := b[..|b| - 1];
      assert (a + b)[..|a + b| - 1] == a + b0;
      LinesAppend(a, b0, split);
    }
  }

  lemma LinesSplitAt(pages: Pages, k: nat, split: string -> seq<string>)
    requires k <= |pages|
    ensures Lines(pages, split) == Lines(pages[..k], split) + Lines(pages[k..], split)
  {
    assert pages[..k] + pages[k..] == pages;
    LinesAppend(pages[..k], pages[k..], split);
  }

  lemma LinesPrefixSnoc(pages: Pages, p: nat, split: string -> seq<string>)
    requires p < |pages|
    ensures Lines(pages[..p + 1], split) == Lines(pages[..p], split) + split(pages[p])
  {
    assert pages[..p + 1][..p] == pages[..p];
  }

  /** The lines of page `p` sit between those of the earlier and the later pages. */
  lemma LinesAround(pages: Pages, p: nat, split: string -> seq<string>)
    requires p < |pages|
    ensures Lines(pages, split) == (Lines(pages[..p], split) + split(pages[p])) + Lines(pages[p + 1..], split)
  {
    LinesSplitAt(pages, p + 1, split);
    LinesPrefixSnoc(pages, p, split);
  }

  /** Every page's `splitlines()`, page after page. */
  function PageLines(pages: Pages): seq<string> {
    Lines(pages, SplitLines)
  }

  /** The text every Google Ads invoice carries; without it the extractor gives up. */
  const Guard := "Summary of costs by account budget"

  /** The rows once the pass is over: an error stays an error, no rows is `None`. */
  function Finish(run: Result<State>): Result<Option<seq<AdsRow>>> {
    match run
    case Err(e) => Err(e)
    case Ok(st) => if st.rows == [] then Ok(None) else Ok(Some(st.rows))
  }

  /**
   * `extract_google_ads`: `Ok(None)` without the guard text or without a
   * detail row, `Err` where an amount does not convert, otherwise the rows.
   */
  function Table(pages: Pages, meta: Meta): Result<Option<seq<AdsRow>>> {
    if !Contains(FullText(pages), Guard) then Ok(None) else Finish(Run(PageLines(pages), meta))
  }

  /**
   * The pass over any lines raises exactly on an unconvertible amount; the
   * rows it ends with are never empty, carry the fixed columns, and are the
   * reference rows of the lines.
   */
  lemma FinishSpec(lines: seq<string>, meta: Meta)
    ensures Finish(Run(lines, meta)).Err? <==> SomeBadAmount(lines)
    ensures Finish(Run(lines, meta)).Ok? && Finish(Run(lines, meta)).value.Some? ==>
      var rows := Finish(Run(lines, meta)).value.value;
      && rows != [] && rows == RowsUpTo(lines, meta)
      && forall k | 0 <= k < |rows| :: RowShape(rows[k], meta)
  {
    RunErrIff(lines, meta);
    if Run(lines, meta).Ok? {
      RunState(lines, meta);
      RunRowsShape(lines, meta);
    }
  }

  /** The extractor's promise over the pages: `FinishSpec` behind the guard. */
  lemma TableSpec(pages: Pages, meta: Meta)
    ensures !Contains(FullText(pages), Guard) ==> Table(pages, meta) == Ok(None)
    ensures Table(pages, meta).Err? <==> Contains(FullText(pages), Guard) && SomeBadAmount(PageLines(pages))
    ensures Table(pages, meta).Ok? && Table(pages, meta).value.Some? ==>
      var rows := Table(pages, meta).value.value;
      && rows != [] && rows == RowsUpTo(PageLines(pages), meta)
      && forall k | 0 <= k < |rows| :: RowShape(rows[k], meta)
  {
    FinishSpec(PageLines(pages), meta);
  }

  lemma Regroup<T>(head: seq<T>, s: seq<T>, k: nat, tail: seq<T>)
    requires k <= |s|
    ensures (head + s) + tail == (head + s[..k]) + (s[k..] + tail)
  {
    assert s == s[..k] + s[k..];
  }

  /** A line that raises ends the whole pass with that error. */
  lemma RaiseEndsPass(head: seq<string>, lines: seq<string>, i: nat, tail: seq<string>, meta: Meta)
    requires i < |lines| && Run(head + lines[..i + 1], meta).Err?
    ensures Run((head + lines) + tail, meta) == Run(head + lines[..i + 1], meta)
  {
    Regroup(head, lines, i + 1, tail);
    RunErrSticks(head + lines[..i + 1], lines[i + 1..] + tail, meta);
  }

  /** What a step does, for a line whose account update and detail match are already known. */
  lemma StepCases(st: State, line: string, meta: Meta, acc: Account, d: Option<DetailPos>)
    requires acc == Update(st.account, line) && d == DetailOf(line)
    ensures d.None? ==> Step(st, line, meta) == Ok(State(acc, st.rows))
    ensures d.Some? && RowOf(line, d.value, acc, meta).None? ==> Step(st, line, meta) == Err("ValueError")
    ensures d.Some? && RowOf(line, d.value, acc, meta).Some? ==>
      Step(st, line, meta) == Ok(State(acc, st.rows + [RowOf(line, d.value, acc, meta).value]))
  {
  }

  /** Once a page's lines are all done, the lines done are those of the pages up to it. */
  lemma PageDone(pages: Pages, p: nat, head: seq<string>, lines: seq<string>)
    requires p < |pages| && head == PageLines(pages[..p]) && lines == SplitLines(pages[p])
    ensures head + lines[..|lines|] == PageLines(pages[..p + 1])
  {
    assert lines[..|lines|] == lines;
    LinesPrefixSnoc(pages, p, SplitLines);
  }

  /** `head + lines[..i]` grows by `lines[i]`. */
  lemma PrefixSnoc(head: seq<string>, lines: seq<string>, i: nat)
    requires i < |lines|
    ensures (head + lines[..i]) + [lines[i]] == head + lines[..i + 1]
  {
    assert lines[..i + 1] == lines[..i] + [lines[i]];
  }

  /**
   * The nested loop over pages and lines, with the three account variables
   * and the rows list; a `ValueError` from `float` ends it.
   */
  method Pass(pages: Pages, meta: Meta) returns (r: Result<State>)
    ensures r == Run(PageLines(pages), meta)
  {
    var accountId: Option<string> := None;
    var accountName: Option<string> := None;
    var accountBudget: Option<string> := None;
    var rows: seq<AdsRow> := [];
    var p := 0;
    while p < |pages|
      invariant p <= |pages|
      invariant Run(PageLines(pages[..p]), meta) == Ok(State(Account(accountId, accountName, accountBudget), rows))
    {
      var lines := SplitLines(pages[p]);
      ghost var head := PageLines(pages[..p]);
      var i := 0;
      assert head + lines[..0] == head;
      while i < |lines|
        invariant i <= |lines|
        invariant Run(head + lines[..i], meta) == Ok(State(Account(accountId, accountName, accountBudget), rows))
      {
        var line := lines[i];
        ghost var st := State(Account(accountId, accountName, accountBudget), rows);
        ghost var before := head + lines[..i];
        var idMatch := AccountIdOf(line);
        var nameMatch := AccountNameOf(line);
        var budgetMatch := AccountBudgetOf(line);
        var detailMatch := DetailOf(line);
        if idMatch.Some? { accountId := idMatch; }
        if nameMatch.Some? { accountName := nameMatch; }
        if budgetMatch.Some? { accountBudget := budgetMatch; }
        var acc := Account(accountId, accountName, accountBudget);
        assert acc == Update(st.account, line);
        StepCases(st, line, meta, acc, detailMatch);
        RunSnoc(before, line, meta);
        PrefixSnoc(head, lines, i);
        if detailMatch.Some? {
          var row := RowOf(line, detailMatch.value, acc, meta);
          if row.None? {
            LinesAround(pages, p, SplitLines);
            RaiseEndsPass(head, lines, i, PageLines(pages[p + 1..]), meta);
            return Err("ValueError");
          }
          rows := rows + [row.value];
        }
        assert Run(before + [line], meta) == Ok(State(acc, rows));
        i := i + 1;
        assert before + [line] == head + lines[..i];
        assert Run(head + lines[..i], meta) == Ok(State(acc, rows));
      }
      PageDone(pages, p, head, lines);
      p := p + 1;
    }
    assert pages[..p] == pages;
    r := Ok(State(Account(accountId, accountName, accountBudget), rows));
  }

  /** `extract_google_ads`: the guard, then the pass, then `DataFrame(rows) if rows else None`. */
  method Extract(pages: Pages, meta: Meta) returns (r: Result<Option<seq<AdsRow>>>)
    ensures r == Table(pages, meta)
  {
    if !Contains(FullText(pages), Guard) {
      return Ok(None);
    }
    var run := Pass(pages, meta);
    match run
    case Err(e) => r := Err(e);
    case Ok(st) => r := if st.rows == [] then Ok(None) else Ok(Some(st.rows));
  }
}
