# gInvoiceParser in Dafny

A model of the core of gInvoiceParser, a tool that reads advertising-platform
invoices (PDF files whose pages have already been turned into text) and turns
each into tables of summary and detail rows. The model covers:

- the page dictionary (`build_text_dict`): page `k` is keyed `page_{k+1}`;
- the product classifier (`identify_product`): first match over seven
  signature phrases in a fixed order;
- the generic header patterns for the invoice number and the billing month,
  and the SA360 override that replaces both with SA360-specific patterns;
- the six extractors (Search Ads 360, Display & Video 360, Google Ads,
  Google Workspace, Campaign Manager 360, LinkedIn), each pattern written as a
  recogniser with lemmas that it finds a match exactly when the pattern has
  one (leftmost match, lazy and greedy groups, `re.IGNORECASE`, `re.DOTALL`).
  The two line-item patterns of DV360 and CM360 are the exception: their
  recognisers are proved sound on every text, but they are proved to find the
  match only on lines written from well-formed field values (`Dv360Lines`,
  `Cm360Lines`), as the lines `Dv360.ItemAt` and `Cm360.ItemAt` under
  "Left out" say;
- the dispatch table `extractor_map` and `get_extractor`;
- the batch driver `SuperHeroFlex`: its constructor, and the `extract_all`
  loop that files each document's data frames under its product tag.

Regular expressions are not interpreted. Each pattern of the source is a
predicate saying what a match is (`...Parse`) together with a recogniser
function (`...At`). A `...AtSound` lemma shows that what the recogniser
returns is a match, and a `...AtComplete` lemma shows that every match is the
one it returns. `re.search` is the leftmost position at which the recogniser
succeeds (`Scan.Search`). `finditer` is the sequence of non-overlapping
leftmost matches (`Scan.FindAll`).

Python's `float` becomes an exact decimal,
`Numbers.Decimal(units, scale)`, and `int` becomes an unbounded integer.
Opening a PDF and listing a directory are parameters of the driver: `read`
maps a path to its pages, or to nothing when opening raises, and `listing`
is the result of the directory glob.

Where the comments of the source and its code disagree, the model follows the code:

- LinkedIn's month field is the constant "Dec 2024" when a billing period is
  printed and "N/A" when none is, although the comment next to it calls
  "Dec 2024" the fallback used when the period is missing
  (gInvoiceParser/extractor/linkedin.py:10-11).
- Each extractor has only its live strategy: one pattern, or one
  line-merge pass. The earlier strategies are commented out in the source
  and are not modelled.
- A conversion that fails (`int`, `float`) does not become a null field:
  - In CM360 it raises `ValueError` out of the extractor.
  - In Google Ads it raises out of the extractor.
  - In DV360 it drops that block only.
- A document that cannot be opened, or whose product is unknown, produces no
  error row. The driver only prints a message and adds nothing.
- `extract_all` calls every extractor with the same four arguments:
  `text_dict`, the invoice number, the path and the month. The CM360, DV360
  and LinkedIn extractors take different parameters:
  - DV360 and LinkedIn run a regular expression over the dictionary and
    raise `TypeError`.
  - CM360 treats the invoice number as its detail text and returns a tuple
    of lists, not data frames.
  - So, as called by the driver, these three families never contribute a
    frame (`Registry.UnproductiveDocument`). Their extractors are still
    modelled as written, on the arguments they declare.

## Model

| member | source | states |
|---|---|---|
| Parser.PageKeyInjective | gInvoiceParser/parser.py:22-23 | `build_text_dict` gives distinct keys to distinct pages, so no page overwrites another |
| Parser.PageKeyFirst | gInvoiceParser/parser.py:22-23 | the key "page_1" belongs to the first page and to no other |
| Parser.ProductName | gInvoiceParser/parser.py:101-116 | a recognised product never has the tag "UNKNOWN" |
| Parser.ProductNameInjective | gInvoiceParser/parser.py:101-116 | distinct products have distinct tags |
| Parser.IdentifyProductIsFirstMatch | gInvoiceParser/parser.py:101-116 | `identify_product` is the first-match classification over its phrase list, in its order |
| Parser.UnknownIffNoSignature | gInvoiceParser/parser.py:115-116 | the result is "UNKNOWN" exactly when none of the seven phrases occurs in the joined text |
| Parser.IdentifyProductSound | gInvoiceParser/parser.py:103-114 | a recognised product has one of its own phrases in the joined text |
| Parser.GoogleAdsBeatsSearchAds | gInvoiceParser/parser.py:105-114 | a text with both "Google Ads" and "Search Ads 360" and no "Campaign Manager 360" is Google Ads |
| Parser.InvoiceNumberAt | gInvoiceParser/parser.py:27 | a match of `Invoice number[:\s]*([0-9]{7,})` at a position, ignoring case, with a maximal digit group |
| Parser.InvoiceNumberAtComplete | gInvoiceParser/parser.py:27 | every parse at a position starts its group where the recogniser's does and ends no later |
| Parser.FindInvoiceNumber | gInvoiceParser/parser.py:27 | the match found is a parse of the pattern |
| Parser.FindInvoiceNumberLeftmost | gInvoiceParser/parser.py:27 | whenever the pattern parses somewhere, a match is found that starts no later |
| Parser.ExtractInvoiceNumber | gInvoiceParser/parser.py:25-28 | `None` exactly when the search fails; otherwise the captured group, at least seven digits |
| Parser.MonthIndex | gInvoiceParser/parser.py:32 | a month abbreviation is one of the twelve names of the alternation |
| Parser.MonthAbbrevSpelled | gInvoiceParser/parser.py:32 | each of the twelve names is three letters that pass the month test |
| Parser.MonthAbbrevAtIff | gInvoiceParser/parser.py:32 | the month test at a position holds exactly when one of the twelve names starts there |
| Parser.MonthAbbrevUpper | gInvoiceParser/parser.py:32 | a month name starts with an upper-case letter |
| Parser.MonDateAt | gInvoiceParser/parser.py:32 | `Mon[a-z]*\s+\d{1,2},\s+\d{4}`: its parts in order inside the text |
| Parser.MonDateAtSound | gInvoiceParser/parser.py:32 | the date recogniser returns a parse of the date pattern |
| Parser.MonDateAtComplete | gInvoiceParser/parser.py:32 | the date pattern has one parse at a position, the recogniser's |
| Parser.RangeTailAt | gInvoiceParser/parser.py:32 | `\s*[-–]\s*` then the second date, after the first date |
| Parser.RangeTailAtSound | gInvoiceParser/parser.py:32 | the tail found is a parse of the tail pattern |
| Parser.RangeTailAtComplete | gInvoiceParser/parser.py:32 | every parse of the tail after a first date is the one found |
| Parser.RangeTailAtShape | gInvoiceParser/parser.py:32 | a tail found after a first date keeps that date; its dash is the first non-space after the date, and the second date starts at the first non-space after the dash |
| Parser.MonthRangeAt | gInvoiceParser/parser.py:32 | a range match ends inside the text after it starts |
| Parser.MonthRangeAtSound | gInvoiceParser/parser.py:32 | the range found is a parse of the whole pattern |
| Parser.MonthRangeAtComplete | gInvoiceParser/parser.py:32 | every parse of the whole pattern at a position is the one found |
| Parser.FindInvoiceMonth | gInvoiceParser/parser.py:32 | the match found lies inside the text |
| Parser.FindInvoiceMonthSound | gInvoiceParser/parser.py:32 | the match found is a parse of the pattern |
| Parser.FindInvoiceMonthLeftmost | gInvoiceParser/parser.py:32 | whenever the pattern parses somewhere, a match is found that starts no later |
| Parser.ExtractInvoiceMonth | gInvoiceParser/parser.py:30-33 | `None` exactly when the search fails; otherwise `group(0)`, the whole matched text |
| Parser.InvoiceMonthShape | gInvoiceParser/parser.py:30-33 | the month text starts with a month name and ends in four digits |
| Parser.MonthRangeEnds | gInvoiceParser/parser.py:32 | any parse spans text that starts with a month name and ends in four digits |
| Parser.InvoiceMonthNamed | gInvoiceParser/parser.py:30-33 | the month text starts with one of the twelve names |
| Parser.Sa360NumberPositions | gInvoiceParser/parser.py:62 | the marks of `INVOICE\s+#?:?\s*(\d{5,})` in order after the literal |
| Parser.Sa360NumberAt | gInvoiceParser/parser.py:62 | the group of a match has at least five characters |
| Parser.Sa360NumberAtSound | gInvoiceParser/parser.py:62 | the match found is a parse, ignoring case, with a maximal digit group |
| Parser.Sa360NumberAtComplete | gInvoiceParser/parser.py:62 | every parse at a position starts its group where the recogniser's does and ends no later, whichever way `\s+`, `#?` and `:?` split |
| Parser.FindSa360Number | gInvoiceParser/parser.py:62 | the group found lies inside the text, five characters at least |
| Parser.FindSa360NumberSound | gInvoiceParser/parser.py:62 | the match found is a parse with a maximal group |
| Parser.FindSa360NumberLeftmost | gInvoiceParser/parser.py:62 | whenever the pattern parses somewhere, a match is found that starts no later |
| Parser.DigitGroup | gInvoiceParser/parser.py:62 | the group of any parse is at least five digits |
| Parser.Sa360NumberIsDigits | gInvoiceParser/parser.py:62-64 | the SA360 invoice number is at least five digits |
| Parser.Sa360MonthPositions | gInvoiceParser/parser.py:65 | the marks of `Search Ads 360\s*[-–]\s*(\w+\s+\d{4})` in order, the group ending in the year |
| Parser.Sa360MonthAt | gInvoiceParser/parser.py:65 | the group of a match is non-empty and inside the text |
| Parser.Sa360MonthAtSound | gInvoiceParser/parser.py:65 | the match found is a parse, ignoring case |
| Parser.Sa360MonthPositionsOf | gInvoiceParser/parser.py:65 | a parse at a position is the one whose marks the recogniser computes, so there is at most one |
| Parser.Sa360MonthAtComplete | gInvoiceParser/parser.py:65 | every parse at a position is the one found |
| Parser.FindSa360Month | gInvoiceParser/parser.py:65 | the group found is non-empty and inside the text |
| Parser.FindSa360MonthSound | gInvoiceParser/parser.py:65 | the match found is a parse of the pattern |
| Parser.FindSa360MonthLeftmost | gInvoiceParser/parser.py:65 | whenever the pattern parses somewhere, a match is found that starts no later |
| Parser.OverrideHeader | gInvoiceParser/parser.py:51-67 | other products keep the generic number and month; SA360 replaces each by its own pattern's group when that pattern matches, and keeps the generic one otherwise |
| Parser.GetExtractorKnownTags | gInvoiceParser/parser.py:13-20 | `extractor_map.get` has an entry for exactly the six tags, the entry of each product's tag is that product's extractor, and "UNKNOWN" has none |
| Parser.PageKey | gInvoiceParser/parser.py:23 | the key `page_{i + 1}` of the page at index `i`; `PageKeyInjective` and `PageKeyFirst` prove the keys distinct and `page_1` the first page's |
| Parser.FullText | gInvoiceParser/parser.py:26 | the pages' texts in page order joined with newlines, the text every header search and the classifier read |
| Parser.IdentifyProduct | gInvoiceParser/parser.py:101-116 | the tag of the first signature phrase found, in the order of the tests; `IdentifyProductIsFirstMatch`, `UnknownIffNoSignature` and `IdentifyProductSound` state it |
| Parser.GenericHeader | gInvoiceParser/parser.py:51-55 | the context before the override: the invoice-number and month searches over the full text, `None` where a search fails |
| Parser.GetExtractor | gInvoiceParser/parser.py:118-119 | `extractor_map.get(tag)`: the entry of a known tag, `None` for any other string; `GetExtractorKnownTags` proves it agrees with `ExtractorFor` |
| Parser.ExtractorFor | gInvoiceParser/parser.py:13-20 | the extractor of each of the six families, none for `UNKNOWN` |
| Text.Lower | gInvoiceParser/parser.py:27 | the case folding of `re.IGNORECASE`: an upper-case letter becomes the letter 32 code points on, anything else is unchanged |
| Text.IndexOf | gInvoiceParser/parser.py:103-114 | the first occurrence of a literal from a position, or -1 exactly when there is none |
| Text.ContainsIff | gInvoiceParser/parser.py:103-114 | `lit in s` holds exactly when the literal occurs at some position |
| Text.Strip | gInvoiceParser/extractor/dv360.py:95 | `str.strip()`: a slice of the input with no whitespace at either end, empty exactly when the input is all whitespace |
| Text.StripShape | gInvoiceParser/extractor/dv360.py:95 | the stripped text is the input less a whitespace prefix and a whitespace suffix |
| Text.StripIdempotent | gInvoiceParser/extractor/dv360.py:95 | stripping twice is stripping once |
| Text.SplitLines | gInvoiceParser/extractor/dv360.py:90 | `str.splitlines()`: no piece holds a line break, and only the empty text has no pieces |
| Text.CleanLines | gInvoiceParser/extractor/sa360.py:379 | every kept line is stripped and non-empty |
| Text.CleanLinesIdempotent | gInvoiceParser/extractor/sa360.py:379 | cleaning cleaned lines changes nothing |
| Text.CleanLinesSnoc | gInvoiceParser/extractor/sa360.py:379 | one more line adds its stripped form exactly when that is non-empty |
| Text.JoinSnoc | gInvoiceParser/extractor/sa360.py:382 | `" ".join` of a list and one more piece puts the separator only between pieces |
| Text.RemoveCommas | gInvoiceParser/extractor/dv360.py:80 | `replace(",", "")` never lengthens its input |
| Text.RemoveCommasSpec | gInvoiceParser/extractor/dv360.py:80 | the result holds no comma, and a text with no comma is unchanged |
| Text.RemoveCommasConcat | gInvoiceParser/extractor/dv360.py:80 | removing commas distributes over concatenation |
| Text.NatToString | gInvoiceParser/parser.py:23 | `str(i + 1)`: a non-empty string of decimal digits, one digit exactly below ten |
| Text.DigitsValueOfNatToString | gInvoiceParser/parser.py:23 | the decimal spelling reads back as the number |
| Text.NatToStringInjective | gInvoiceParser/parser.py:23 | distinct numbers have distinct spellings |
| Text.BaseName | gInvoiceParser/extractor/google_workspace.py:82 | `Path(filename).name` holds no path separator |
| Text.LastComponent | gInvoiceParser/extractor/google_workspace.py:82 | the last component is a suffix of the path after its last separator |
| Scan.Search | gInvoiceParser/parser.py:27 | `re.search`: the leftmost position where the pattern matches, with its match, and `None` exactly when it matches nowhere |
| Scan.First | gInvoiceParser/extractor/dv360.py:110 | a lazy `.+?`: the first end position in range at which the rest matches, none earlier; `None` exactly when none in range does |
| Scan.Last | gInvoiceParser/extractor/dv360.py:110 | a greedy `\s*` that backtracks: the last end position in range at which the rest matches, none later |
| Scan.LazyEndMax | gInvoiceParser/extractor/cm360.py:49-51 | how far `.` may reach: to the next newline, or to the end under `re.DOTALL` |
| Scan.FindAll | gInvoiceParser/extractor/linkedin.py:31 | `finditer`: matches in order, non-overlapping, each a match of the pattern, none exactly when the pattern matches nowhere |
| Scan.FindAllGaps | gInvoiceParser/extractor/linkedin.py:31 | between consecutive matches no match starts, so none is skipped |
| Scan.Collect | gInvoiceParser/extractor/google_workspace.py:87-104 | the rows a loop appends, one per line whose pattern matches, never more rows than lines |
| Scan.CollectFrom | gInvoiceParser/extractor/google_workspace.py:87-104 | every collected row is the row of some line |
| Scan.CollectSnoc | gInvoiceParser/extractor/google_workspace.py:87-104 | one more line appends its row exactly when it matches |
| Scan.Traverse | gInvoiceParser/extractor/cm360.py:54-71 | a loop whose body may raise: a row per match, or the first error |
| Scan.TraverseSpec | gInvoiceParser/extractor/cm360.py:54-71 | the loop succeeds exactly when every step does, its rows are the steps' rows, and a failure is the failure of some step |
| Scan.TraversePrefixErr | gInvoiceParser/extractor/cm360.py:54-71 | once a step raises, later steps change nothing |
| Numbers.ParseInt | gInvoiceParser/extractor/cm360.py:67 | `int(...)` succeeds exactly on an integer literal, and reads a digit string as its decimal value |
| Numbers.ParseIntOfIntToString | gInvoiceParser/extractor/cm360.py:67 | every integer's literal parses back to it |
| Numbers.ParseDecimal | gInvoiceParser/extractor/linkedin.py:37-38 | `float(...)` on a numeral succeeds exactly on a float literal |
| Numbers.ParseDecimalPointed | gInvoiceParser/extractor/linkedin.py:37-38 | a whole and a fractional digit string around one point read as their exact decimal |
| Numbers.ParseDecimalTwoPoints | gInvoiceParser/extractor/dv360.py:129 | a numeral with two points raises |
| Numbers.ParseDecimalDegenerate | gInvoiceParser/extractor/dv360.py:129 | "-", "." and "" raise |
| Numbers.ParseDecimalDigits | gInvoiceParser/extractor/linkedin.py:37-38 | a digit string reads as its integer value |
| Numbers.ParseDecimalTwoDecimals | gInvoiceParser/extractor/dv360.py:80 | an amount with two decimals reads as its cents over 100 |
| Numbers.AmountDecimal | gInvoiceParser/extractor/dv360.py:80 | the value of a matched `[\d,]+\.\d{2}` amount with its commas removed |
| Patterns.AmountAt | gInvoiceParser/extractor/dv360.py:76 | a match of `[\d,]+\.\d{2}` at a position is a parse of it |
| Patterns.AmountAtComplete | gInvoiceParser/extractor/dv360.py:76 | every parse of the amount at a position is the one found |
| Patterns.AmountShape | gInvoiceParser/extractor/dv360.py:80 | a matched amount without its commas is digits, a point and two digits |
| Patterns.SepAt | gInvoiceParser/extractor/cm360.py:50 | `\s*-\s*` then a label: whitespace, a dash, whitespace, the label |
| Patterns.SepAtComplete | gInvoiceParser/extractor/cm360.py:50 | every such separator before a label is the one found |
| Patterns.DateTailAt | gInvoiceParser/extractor/dv360.py:75 | ` \d{1,2}, \d{4}` after a month word lies inside the text, parts in order |
| Patterns.DateTailAtSound | gInvoiceParser/extractor/dv360.py:75 | the date tail found is a parse of it |
| Patterns.DateTailAtComplete | gInvoiceParser/extractor/dv360.py:75 | every parse of the date tail is the one found |
| Sa360.FinancialAt | gInvoiceParser/extractor/sa360.py:346 | `([\d,]+)\s+([\d.]+)\s+([\d,]+\.\d{2})` at a position: three groups in order, the last with a point and two decimals |
| Sa360.FinancialAtSound | gInvoiceParser/extractor/sa360.py:346 | what the recogniser returns is a parse of the financial pattern |
| Sa360.FinancialAtComplete | gInvoiceParser/extractor/sa360.py:346 | every parse at a position is the one the recogniser returns |
| Sa360.FindFinancialIff | gInvoiceParser/extractor/sa360.py:383 | `financial_pattern.search(block)` succeeds exactly when the pattern parses somewhere in the block |
| Sa360.IdTailAt | gInvoiceParser/extractor/sa360.py:349 | `\s+ID[:\s]+(\d+)` after the name: the id group lies after "ID" |
| Sa360.IdTailAtSound | gInvoiceParser/extractor/sa360.py:349 | the tail found is a parse with a maximal digit group |
| Sa360.IdTailDigits | gInvoiceParser/extractor/sa360.py:349 | the id group is digits |
| Sa360.IdTailAtComplete | gInvoiceParser/extractor/sa360.py:349 | every parse of the tail starts its group where the recogniser's does and ends no later |
| Sa360.LazyNameAt | gInvoiceParser/extractor/sa360.py:349 | lazy `(.+?)`: the first end on the line after which the id tail matches |
| Sa360.AdvertiserAt | gInvoiceParser/extractor/sa360.py:349 | `Advertiser:\s*(.+?)\s+ID[:\s]+(\d+)`: the name and the id, in order, inside the block |
| Sa360.AdvertiserAtSound | gInvoiceParser/extractor/sa360.py:349 | the match is a parse, and the name is the shortest one after which the tail matches |
| Sa360.AdvertiserAtComplete | gInvoiceParser/extractor/sa360.py:349 | whenever the pattern parses at a position, the recogniser finds a match there |
| Sa360.AdvertiserIdDigits | gInvoiceParser/extractor/sa360.py:354 | the advertiser id is non-empty digits, so `.strip()` leaves it unchanged |
| Sa360.AccountIdAt | gInvoiceParser/extractor/sa360.py:350 | `Account ID[:\s]+([\d\-]+)`: the group lies after the literal and its gap |
| Sa360.AccountIdAtSound | gInvoiceParser/extractor/sa360.py:350 | the match is a parse with a maximal group of digits and dashes |
| Sa360.AccountIdAtComplete | gInvoiceParser/extractor/sa360.py:350 | every parse starts its group where the recogniser's does and ends no later |
| Sa360.TotalAt | gInvoiceParser/extractor/sa360.py:389 | `TOTAL AMOUNT \(USD\)\s*\$?([\d,]+\.\d{2})` ignoring case: the amount lies after the label |
| Sa360.TotalAtSound | gInvoiceParser/extractor/sa360.py:389-390 | the match is a parse, and the amount without commas has two decimals |
| Sa360.TotalAtComplete | gInvoiceParser/extractor/sa360.py:389 | every parse at a position is the match found |
| Sa360.AdvertiserFields | gInvoiceParser/extractor/sa360.py:353-354 | the stripped name and the id; the id is digits and is non-empty exactly when the advertiser search matches |
| Sa360.AccountField | gInvoiceParser/extractor/sa360.py:355 | the account id is digits and dashes, non-empty exactly when the search matches |
| Sa360.FinancialFields | gInvoiceParser/extractor/sa360.py:356-358 | three "" when there is no financial match; otherwise the quantity and amount without commas and the unit price, of the financial shape |
| Sa360.FinancialMatchShape | gInvoiceParser/extractor/sa360.py:356-358 | any financial parse gives fields of that shape |
| Sa360.QuantityDigits | gInvoiceParser/extractor/sa360.py:356 | a quantity group without its commas is digits |
| Sa360.ExtractFields | gInvoiceParser/extractor/sa360.py:348-376 | a detail row: the fixed "Search Ads 360", "detail" and "% Media Spend", the given number, month and file name, empty campaign, code and unit, and the three field groups |
| Sa360.Groups | gInvoiceParser/extractor/sa360.py:380-385 | the buffer loop closes at most one block per line |
| Sa360.GroupsStep | gInvoiceParser/extractor/sa360.py:381-385 | one line joins the buffer; the block closes and the buffer empties exactly when the joined text passes the test |
| Sa360.GroupsPartition | gInvoiceParser/extractor/sa360.py:380-385 | the closed blocks and the leftover buffer together are exactly the lines, in order |
| Sa360.GroupsShortest | gInvoiceParser/extractor/sa360.py:383 | every block closes on its last line and on no earlier one, and the leftover never passed the test |
| Sa360.Subtotal | gInvoiceParser/extractor/sa360.py:388-390 | "" exactly when the total search fails; otherwise an amount with two decimals |
| Sa360.DetailRows | gInvoiceParser/extractor/sa360.py:384 | one row per closed block, each built from the block's joined text |
| Sa360.DetailRowsSnoc | gInvoiceParser/extractor/sa360.py:384 | one more block appends its row |
| Sa360.CollectDetails | gInvoiceParser/extractor/sa360.py:378-385 | the loop computes the rows of the reference blocks |
| Sa360.Extract | gInvoiceParser/extractor/sa360.py:342-410 | the extractor computes the reference table |
| Sa360.TableShape | gInvoiceParser/extractor/sa360.py:342-410 | the table is never empty and has at most one row per line plus one; the last row is the "Subtotal" summary, the others are detail rows of the financial shape |
| Sa360.Table | gInvoiceParser/extractor/sa360.py:342-410 | a detail row per closed block of the cleaned lines, then the subtotal row; `TableShape` and `CollectDetails` carry its properties |
| GoogleAds.AccountIdOf | gInvoiceParser/extractor/google_ads.py:144 | `re.match(r"Account ID: (\S+)")` matches exactly when the line starts with the literal and a non-space follows; the group is the maximal non-space run |
| GoogleAds.RestAfter | gInvoiceParser/extractor/google_ads.py:145-146 | `re.match(lit + "(.+)")` matches exactly when the line starts with the literal and another character follows; the group runs to the line's end or its first newline |
| GoogleAds.AccountPatternsExclusive | gInvoiceParser/extractor/google_ads.py:144-154 | no line matches two of the account patterns |
| GoogleAds.UomAt | gInvoiceParser/extractor/google_ads.py:147 | `(Clicks\|Impressions)`: one of the two words |
| GoogleAds.DetailTailAt | gInvoiceParser/extractor/google_ads.py:147 | `\s+(\d+)\s+(Clicks\|Impressions)\s+([\d,.]+)` parses after the description, with a maximal amount group |
| GoogleAds.DetailTailAtComplete | gInvoiceParser/extractor/google_ads.py:147 | every parse of the tail is found, with the same groups and an amount group at least as long |
| GoogleAds.DetailOf | gInvoiceParser/extractor/google_ads.py:147 | lazy `(.+?)`: the first description end after which the tail matches, and no match when none does |
| GoogleAds.DetailOfComplete | gInvoiceParser/extractor/google_ads.py:147 | whenever some description end works, a match is found that ends no later |
| GoogleAds.QuantityOf | gInvoiceParser/extractor/google_ads.py:168 | `int(qty)` of the digit group: its non-negative value |
| GoogleAds.AmountOf | gInvoiceParser/extractor/google_ads.py:170 | `float(amount.replace(",", ""))` succeeds exactly when the text without commas is a decimal literal |
| GoogleAds.RowOf | gInvoiceParser/extractor/google_ads.py:156-171 | a row exists exactly when the amount converts; it holds the current account fields, the stripped description, the unit and the quantity as captured |
| GoogleAds.LastHit | gInvoiceParser/extractor/google_ads.py:149-154 | the last line on which a pattern matches, and no match after it |
| GoogleAds.LatestSnoc | gInvoiceParser/extractor/google_ads.py:149-154 | the latest match after one more line is that line's match when it has one |
| GoogleAds.AccountAfterSnoc | gInvoiceParser/extractor/google_ads.py:149-154 | the account fields after one more line are its update of the previous ones; so each field is the group of its last matching line |
| GoogleAds.LineRows | gInvoiceParser/extractor/google_ads.py:156-171 | a line adds at most one row, of the invoice's shape |
| GoogleAds.StepErr | gInvoiceParser/extractor/google_ads.py:170 | a line raises exactly when its detail match has an amount `float` refuses |
| GoogleAds.StepOk | gInvoiceParser/extractor/google_ads.py:143-171 | a line that does not raise updates the account fields and appends its row, if any |
| GoogleAds.RunSnoc | gInvoiceParser/extractor/google_ads.py:143-171 | the loop over one more line is one more step, and a raised error stops it |
| GoogleAds.RunState | gInvoiceParser/extractor/google_ads.py:139-171 | when the loop ends normally, the account fields are those of the last matching lines and the rows are the reference rows |
| GoogleAds.RunErrIff | gInvoiceParser/extractor/google_ads.py:139-171 | the loop raises exactly when some line has a bad amount |
| GoogleAds.RunRowsShape | gInvoiceParser/extractor/google_ads.py:139-171 | at most one row per line, each of the invoice's shape |
| GoogleAds.RunErrSticks | gInvoiceParser/extractor/google_ads.py:139-171 | once raised, further lines change nothing |
| GoogleAds.LinesAppend | gInvoiceParser/extractor/google_ads.py:139-141 | the lines of two runs of pages are the lines of each, in order |
| GoogleAds.LinesAround | gInvoiceParser/extractor/google_ads.py:139-141 | the lines of the pages are those before a page, that page's, and those after |
| GoogleAds.FinishSpec | gInvoiceParser/extractor/google_ads.py:173 | `DataFrame(rows) if rows else None`: an error exactly when a line raises; returned rows are non-empty and are the reference rows |
| GoogleAds.TableSpec | gInvoiceParser/extractor/google_ads.py:129-173 | `None` when the guard text is missing; an error exactly when the guard is present and some line has a bad amount; returned rows are non-empty reference rows |
| GoogleAds.StepCases | gInvoiceParser/extractor/google_ads.py:143-171 | one line: no detail match keeps the rows, a failed amount raises `ValueError`, and otherwise the row is appended |
| GoogleAds.RaiseEndsPass | gInvoiceParser/extractor/google_ads.py:139-171 | a raise inside a page ends the whole loop with that error |
| GoogleAds.Pass | gInvoiceParser/extractor/google_ads.py:134-171 | the nested loops compute the reference run over all page lines |
| GoogleAds.Extract | gInvoiceParser/extractor/google_ads.py:129-173 | the extractor computes the reference table |
| GoogleAds.UpdateOneField | gInvoiceParser/extractor/google_ads.py:144-154 | a line that matches one account pattern sets that field to its group and leaves the other two as they were |
| GoogleAds.Step | gInvoiceParser/extractor/google_ads.py:144-170 | one line: the three account updates, then a detail row built with the updated account, or `ValueError` when its amount does not convert; `StepOk`, `StepErr` and `StepCases` state it |
| GoogleAds.Run | gInvoiceParser/extractor/google_ads.py:139-170 | the pass over all lines in order, stopping at the first line that raises; `RunState`, `RunErrIff` and `RunRowsShape` relate it to the reference `RowsUpTo` |
| GoogleAds.Finish | gInvoiceParser/extractor/google_ads.py:173 | after the pass: an error stays an error, no rows is `None`, otherwise the rows; `FinishSpec` states it |
| GoogleAds.Table | gInvoiceParser/extractor/google_ads.py:129-173 | `None` without the guard text or without a row, the error of an unconvertible amount, else the rows; `TableSpec` states it |
| Options.OrElse | gInvoiceParser/parser.py:74-76 | `x or default`: the value when it is present and non-empty, the default otherwise |
| Workspace.PageTextFrom | gInvoiceParser/extractor/google_workspace.py:62 | `text_dict.get(key, {}).get("text", "")`: the text of the page with that key, or "" |
| Workspace.SummaryIsFirstPage | gInvoiceParser/extractor/google_workspace.py:62 | the summary text is the first page's text, or "" when there is no page |
| Workspace.PagesOtherThan | gInvoiceParser/extractor/google_workspace.py:63 | the pages whose key differs from a given key, no more pages than there are |
| Workspace.DetailPagesAreTheRest | gInvoiceParser/extractor/google_workspace.py:63 | the detail pages are all pages but the first, in order |
| Workspace.PeriodAt | gInvoiceParser/extractor/google_workspace.py:66 | `Summary for (.+?\d{4})`: the literal, then the group ends at the first four digits on the line |
| Workspace.FindPeriod | gInvoiceParser/extractor/google_workspace.py:66 | a found period is a match at its position |
| Workspace.FindPeriodLeftmost | gInvoiceParser/extractor/google_workspace.py:66 | the found period is the leftmost match, and none means no match anywhere |
| Workspace.PeriodGroup | gInvoiceParser/extractor/google_workspace.py:66 | the period group has at least one character and ends in a four-digit year |
| Workspace.MonthField | gInvoiceParser/extractor/google_workspace.py:67 | the matched period, ending in a year; else the given month, or "N/A" when it is empty; never "" |
| Workspace.NumberAt | gInvoiceParser/extractor/google_workspace.py:70 | `Invoice number: (\d+)`: the literal and a maximal non-empty digit run; no match when no digit follows |
| Workspace.FindNumber | gInvoiceParser/extractor/google_workspace.py:70 | a found number is a match at its position |
| Workspace.FindNumberLeftmost | gInvoiceParser/extractor/google_workspace.py:70 | the found number is the leftmost match, and none means no match anywhere |
| Workspace.NumberField | gInvoiceParser/extractor/google_workspace.py:73 | the matched digits; else the given number, or "N/A" when it is empty; never "" |
| Workspace.SubtotalAt | gInvoiceParser/extractor/google_workspace.py:71 | `Subtotal in USD \$([\d,.]+)`: the literal and a maximal non-empty run of digits, commas and points |
| Workspace.FindSubtotal | gInvoiceParser/extractor/google_workspace.py:71 | a found subtotal is a match at its position |
| Workspace.FindSubtotalLeftmost | gInvoiceParser/extractor/google_workspace.py:71 | the found subtotal is the leftmost match, and none means no match anywhere |
| Workspace.SubtotalField | gInvoiceParser/extractor/google_workspace.py:74 | the matched text, kept as text; else "N/A" |
| Workspace.SummaryRow | gInvoiceParser/extractor/google_workspace.py:77-84 | the summary row: "summary", the summary fields, the base name, and no description, quantity or unit |
| Workspace.UsageTailAt | gInvoiceParser/extractor/google_workspace.py:88 | `\s+(\d+)\s+([\d,]+\.\d{2})$` after the description |
| Workspace.UsageTailAtComplete | gInvoiceParser/extractor/google_workspace.py:88 | the tail has one parse at a description end, the one found |
| Workspace.UsageOf | gInvoiceParser/extractor/google_workspace.py:88 | `re.match`: the line starts with the usage prefix, a lazy description follows on the line, then the tail |
| Workspace.UsageOfLazy | gInvoiceParser/extractor/google_workspace.py:88 | the description ends at the first place the tail matches, and no match means no end works |
| Workspace.UsageOfComplete | gInvoiceParser/extractor/google_workspace.py:88 | whenever some description end works, a match is found that ends no later |
| Workspace.UsageRow | gInvoiceParser/extractor/google_workspace.py:87-103 | a row exactly when the line matches: "detail", the summary fields, the base name and "users" |
| Workspace.UsageRowDescription | gInvoiceParser/extractor/google_workspace.py:90 | the description starts with the usage prefix and is longer than it |
| Workspace.UsageRowQuantity | gInvoiceParser/extractor/google_workspace.py:91 | the quantity is non-empty digits, kept as text |
| Workspace.UsageRowAmount | gInvoiceParser/extractor/google_workspace.py:92 | the amount has two decimals and ends the line |
| Workspace.UsageAmount | gInvoiceParser/extractor/google_workspace.py:88 | the captured amount ends the line, with two decimals |
| Workspace.TailAmount | gInvoiceParser/extractor/google_workspace.py:88 | any parse of the tail captures an amount that ends the line |
| Workspace.DetailRows | gInvoiceParser/extractor/google_workspace.py:87-103 | at most one row per detail line |
| Workspace.DetailRowsShape | gInvoiceParser/extractor/google_workspace.py:93-103 | every detail row is the row of some line and carries the summary fields |
| Workspace.DetailRowsAppend | gInvoiceParser/extractor/google_workspace.py:87-103 | the rows of two runs of lines are the rows of each, in order |
| Workspace.AppendDetails | gInvoiceParser/extractor/google_workspace.py:87-103 | the loop appends to the summary row exactly the reference detail rows |
| Workspace.Extract | gInvoiceParser/extractor/google_workspace.py:55-105 | the extractor always returns a table: the summary row then the detail rows |
| Workspace.SummaryText | gInvoiceParser/extractor/google_workspace.py:62 | the text of the page keyed `page_1`, or empty; `SummaryIsFirstPage` proves it is the first page |
| Workspace.DetailText | gInvoiceParser/extractor/google_workspace.py:63 | the other pages in order joined with newlines; `DetailPagesAreTheRest` proves they are the pages after the first |
| Workspace.SummaryOf | gInvoiceParser/extractor/google_workspace.py:66-74 | the period, invoice number and subtotal fields with their fallbacks; the `Find...Leftmost` lemmas state each search |
| Workspace.Table | gInvoiceParser/extractor/google_workspace.py:55-105 | the summary row, then one row per matching detail line, each naming the file by its base name; `Extract` and `DetailRowsShape` carry its properties |
| Dv360.InvoiceNumberAt | gInvoiceParser/extractor/dv360.py:74 | the group of `Invoice number[:\s]*([\d\-]+)` lies after the literal |
| Dv360.InvoiceNumberAtSound | gInvoiceParser/extractor/dv360.py:74 | what the recogniser returns is a parse of the pattern, the literal compared ignoring case, with a maximal group |
| Dv360.InvoiceNumberAtComplete | gInvoiceParser/extractor/dv360.py:74 | every parse at a position starts its group where the recogniser's does and ends no later |
| Dv360.InvoiceNumberDigits | gInvoiceParser/extractor/dv360.py:74 | the captured number is digits and dashes |
| Dv360.FindInvoiceNumber | gInvoiceParser/extractor/dv360.py:74 | `re.search`: the leftmost match, and none anywhere when it returns none |
| Dv360.InvoiceNumberField | gInvoiceParser/extractor/dv360.py:78 | "N/A" exactly when there is no match; otherwise a non-empty run of digits and dashes |
| Dv360.WordDateAt | gInvoiceParser/extractor/dv360.py:75 | `[A-Za-z]+\s+\d{1,2},\s+\d{4}` ends inside the text after its name |
| Dv360.WordDateAtSound | gInvoiceParser/extractor/dv360.py:75 | what the date recogniser returns is a parse of the date pattern |
| Dv360.WordDateAtComplete | gInvoiceParser/extractor/dv360.py:75 | the date pattern has one parse at a position, the recogniser's |
| Dv360.SpacedDate | gInvoiceParser/extractor/dv360.py:75 | `\s+` then a date |
| Dv360.DashedDate | gInvoiceParser/extractor/dv360.py:75 | `\s*-\s*` then a date |
| Dv360.DatesFrom | gInvoiceParser/extractor/dv360.py:75 | after "Summary for": whitespace, the first date, whitespace, a dash, whitespace and the second date, in order inside the text |
| Dv360.RangeWith | gInvoiceParser/extractor/dv360.py:75 | "Summary for", then the first date, the dash and the second date, in order inside the text |
| Dv360.SpacedDateComplete | gInvoiceParser/extractor/dv360.py:75 | every whitespace-then-date parse is found |
| Dv360.DashedDateComplete | gInvoiceParser/extractor/dv360.py:75 | every dash-then-date parse is found |
| Dv360.DatesFromSteps | gInvoiceParser/extractor/dv360.py:75 | the whitespace-then-date step and the dash-then-date step, each ending where a parse puts it, give that parse |
| Dv360.DatesFromComplete | gInvoiceParser/extractor/dv360.py:75 | every parse of the two dates after "Summary for" is the one found |
| Dv360.RangeWithComplete | gInvoiceParser/extractor/dv360.py:75 | every parse of the range pattern at a position is the one found |
| Dv360.WordDatesRead | gInvoiceParser/extractor/dv360.py:75 | the date recogniser is a sound reader of dates |
| Dv360.RangeAt | gInvoiceParser/extractor/dv360.py:75 | a range match at a position is a parse of the whole range pattern, with its parts in order |
| Dv360.RangeAtComplete | gInvoiceParser/extractor/dv360.py:75 | every parse of the range pattern is found |
| Dv360.FindRange | gInvoiceParser/extractor/dv360.py:75 | the leftmost range match, and none anywhere when it returns none |
| Dv360.MonthField | gInvoiceParser/extractor/dv360.py:79 | "N/A" exactly when there is no range; otherwise the two dates joined by " - " |
| Dv360.DollarAmountAt | gInvoiceParser/extractor/dv360.py:76 | `\$([\d,]+\.\d{2})` at a position: a dollar sign and an amount with two decimals |
| Dv360.TotalDueAt | gInvoiceParser/extractor/dv360.py:76 | `Total amount due.*?\$...`: the dollar amount lies after the literal |
| Dv360.TotalDueAtSound | gInvoiceParser/extractor/dv360.py:76 | the match is a parse whose `.*?` stops at the first dollar amount on the line |
| Dv360.TotalDueAtComplete | gInvoiceParser/extractor/dv360.py:76 | whenever a parse exists at a position, the recogniser finds a match there |
| Dv360.TotalDueAtDollar | gInvoiceParser/extractor/dv360.py:76 | the amount found is a dollar amount at the position found |
| Dv360.FindTotalDue | gInvoiceParser/extractor/dv360.py:76 | the leftmost total match, and none anywhere when it returns none |
| Dv360.TotalValue | gInvoiceParser/extractor/dv360.py:80 | `float(group.replace(",", ""))` of the captured amount |
| Dv360.TotalField | gInvoiceParser/extractor/dv360.py:80 | 0.0 when there is no total; otherwise the value of the amount without commas |
| Dv360.MergedLines | gInvoiceParser/extractor/dv360.py:89-106 | the merge produces no more lines than it reads, and none exactly when it reads none |
| Dv360.MergedSnoc | gInvoiceParser/extractor/dv360.py:98-103 | a keyword line (or the first line) starts a new merged line; any other line is joined to the last one with a space |
| Dv360.MergedClean | gInvoiceParser/extractor/dv360.py:95-106 | merged lines are stripped and non-empty, like the lines they come from |
| Dv360.MergedLossless | gInvoiceParser/extractor/dv360.py:94-106 | joining the merged lines with spaces gives the cleaned lines joined with spaces: nothing is lost or reordered |
| Dv360.MergedKeywordStarts | gInvoiceParser/extractor/dv360.py:98-101 | every merged line after the first contains one of the five keywords, and so does the first when the first clean line does |
| Dv360.BlockStarts | gInvoiceParser/extractor/dv360.py:98-103 | the indices of the clean lines that open a merged line all lie inside the input |
| Dv360.MergedBlockStarts | gInvoiceParser/extractor/dv360.py:94-106 | merged line `k` begins with clean line `BlockStarts[k]`: the first with the first clean line, each later one with a line that passes the keyword test |
| Dv360.BlockCount | gInvoiceParser/extractor/dv360.py:98-106 | there are as many blocks as lines passing the keyword test, plus one when the first line does not pass it |
| Dv360.BlockStartsIncrease | gInvoiceParser/extractor/dv360.py:98-101 | every block after the first is opened by a later line, never by the first one |
| Dv360.MergedKeywordBlocks | gInvoiceParser/extractor/dv360.py:94-106 | the number of merged lines is the number of keyword lines, plus one when non-keyword lines come first; every merged line after the first begins with a later keyword line; the first begins with the first clean line |
| Dv360.MergeFlush | gInvoiceParser/extractor/dv360.py:105-106 | flushing the buffer after the loop gives the reference merge |
| Dv360.MergeStep | gInvoiceParser/extractor/dv360.py:98-103 | one turn of the merge loop keeps the loop invariant |
| Dv360.Merge | gInvoiceParser/extractor/dv360.py:89-106 | the merge loop computes the reference merge of the cleaned lines |
| Dv360.CountsAt | gInvoiceParser/extractor/dv360.py:111 | `\s+([-\d,]+)\s+(\w+)\s+([-\d,.]+)`: the quantity, the unit and the amount, in order, each in its class |
| Dv360.UnitAt | gInvoiceParser/extractor/dv360.py:111 | `\s+(\w+)\s+([-\d,.]+)`: whitespace, the unit, whitespace and the amount, in order, each in its class |
| Dv360.FiguresAt | gInvoiceParser/extractor/dv360.py:111 | `ID:\s*(\d+)` then the three figures |
| Dv360.IdAt | gInvoiceParser/extractor/dv360.py:111 | `\s*ID:\s*(\d+)`: the digits of the advertiser id, after the position |
| Dv360.AdvertiserNameAt | gInvoiceParser/extractor/dv360.py:111 | lazy advertiser name: the first end on the line after which the figures match |
| Dv360.AdvertiserAt | gInvoiceParser/extractor/dv360.py:111 | `Advertiser:\s*` then the lazy name |
| Dv360.ConstellationIdAt | gInvoiceParser/extractor/dv360.py:111 | `\s*-\s*Constellation ID:\s*(\d+)`: the digits of the partner id; no match where the separator does not match |
| Dv360.AdvertiserOpenAt | gInvoiceParser/extractor/dv360.py:111 | `\s*-\s*Advertiser:` then an advertiser name on one line after which the figures match |
| Dv360.PartnerTailAt | gInvoiceParser/extractor/dv360.py:111 | after the partner name: digits of the Constellation ID, the advertiser name and the figures |
| Dv360.PartnerNameAt | gInvoiceParser/extractor/dv360.py:111 | lazy partner name: the first end after which the tail matches |
| Dv360.PartnerAt | gInvoiceParser/extractor/dv360.py:111 | `Partner:\s*` then the lazy name |
| Dv360.FeeTailAt | gInvoiceParser/extractor/dv360.py:111 | after the fee type: the partner part |
| Dv360.ItemAt | gInvoiceParser/extractor/dv360.py:110-112 | lazy fee type: the first end after which the rest matches |
| Dv360.FindItem | gInvoiceParser/extractor/dv360.py:115 | `pattern.search(line)`: the leftmost match, and none anywhere when it returns none |
| Dv360.ItemFigures | gInvoiceParser/extractor/dv360.py:111 | the groups of a match lie in order on the line, each in its class |
| Dv360.ItemRowOf | gInvoiceParser/extractor/dv360.py:117-132 | a row exists exactly when both conversions succeed; it repeats the header, strips the names, and holds the ids, the unit and the converted figures as captured |
| Dv360.ItemRow | gInvoiceParser/extractor/dv360.py:114-132 | a line without a match gives no row; otherwise the row of its match |
| Dv360.DetailRows | gInvoiceParser/extractor/dv360.py:114-132 | there are at most as many rows as merged lines |
| Dv360.DetailRowsShape | gInvoiceParser/extractor/dv360.py:118-121 | every row is the row of some merged line and repeats the header |
| Dv360.DetailRowsSingle | gInvoiceParser/extractor/dv360.py:114-132 | one line gives its row, if any |
| Dv360.DetailRowsAppend | gInvoiceParser/extractor/dv360.py:114-132 | the rows of two runs of lines are the rows of each, one after the other |
| Dv360Lines.TextCounts | gInvoiceParser/extractor/dv360.py:111 | on the text of a well-formed quantity, unit and amount, the counts recogniser matches each field at its offset |
| Dv360Lines.TextFigures | gInvoiceParser/extractor/dv360.py:111 | on ` ID: <id>` and the counts, the figures recogniser matches with each group at its field's offset |
| Dv360Lines.NoFiguresIn | gInvoiceParser/extractor/dv360.py:111 | the figures cannot match inside a run of non-colon characters: the lazy advertiser group cannot stop early |
| Dv360Lines.AdvertiserNameStep | gInvoiceParser/extractor/dv360.py:111 | the lazy advertiser group ends at the first place where the figures match |
| Dv360Lines.TextAdvertiserName | gInvoiceParser/extractor/dv360.py:111 | the lazy advertiser group of a well-formed block ends at the end of the advertiser field |
| Dv360Lines.TextAdvertiser | gInvoiceParser/extractor/dv360.py:111 | after one space, the advertiser name and its figures match at the fields' offsets |
| Dv360Lines.TextConstellation | gInvoiceParser/extractor/dv360.py:111 | ` - Constellation ID: <id>` matches the id's digits and stops where the advertiser part starts |
| Dv360Lines.TextAdvertiserOpen | gInvoiceParser/extractor/dv360.py:111 | ` - Advertiser: ` then the advertiser and its figures, at the fields' offsets |
| Dv360Lines.TextPartnerTail | gInvoiceParser/extractor/dv360.py:111 | the partner tail of a well-formed block matches at the offsets of its fields |
| Dv360Lines.NoPartnerTailIn | gInvoiceParser/extractor/dv360.py:111 | no partner tail starts inside a dash-free run: the lazy partner group cannot stop early |
| Dv360Lines.PartnerNameStep | gInvoiceParser/extractor/dv360.py:111 | the lazy partner group ends at the first place where the partner tail matches |
| Dv360Lines.TextPartnerName | gInvoiceParser/extractor/dv360.py:111 | the lazy partner group of a well-formed block ends at the end of the partner field |
| Dv360Lines.TextPartner | gInvoiceParser/extractor/dv360.py:111 | after one space, the partner name and the partner tail match at the fields' offsets |
| Dv360Lines.TextFeeTail | gInvoiceParser/extractor/dv360.py:111 | ` - Partner: ` then the partner and the rest of the block, at the fields' offsets |
| Dv360Lines.NoFeeTailIn | gInvoiceParser/extractor/dv360.py:111 | no ` - Partner:` part starts inside the dash-free fee type: the lazy fee type group cannot stop early |
| Dv360Lines.ItemStep | gInvoiceParser/extractor/dv360.py:111 | the lazy fee type group ends at the first place where the rest of the pattern matches |
| Dv360Lines.TextItem | gInvoiceParser/extractor/dv360.py:110-112 | the pattern matches at the start of the block written from well-formed fields, each group at its field's offset |
| Dv360Lines.FindItemStart | gInvoiceParser/extractor/dv360.py:115 | `pattern.search` returns the match at the start when there is one |
| Dv360Lines.LineItem | gInvoiceParser/extractor/dv360.py:110-115 | `pattern.search` finds the line item at the start of every block written from well-formed fields |
| Dv360Lines.TextFiguresCapture | gInvoiceParser/extractor/dv360.py:111 | the figures' groups capture the advertiser id, the quantity, the unit and the amount that were written |
| Dv360Lines.TextTailCapture | gInvoiceParser/extractor/dv360.py:111 | the partner tail's groups capture the partner id, the advertiser and the figures that were written |
| Dv360Lines.LineCapture | gInvoiceParser/extractor/dv360.py:111 | every group of the match on the block captures the field it was written from |
| Dv360Lines.RowOfFields | gInvoiceParser/extractor/dv360.py:117-130 | converting a match whose groups capture the fields gives the row of those fields: names stripped, ids and unit as written, quantity and amount converted, none when a conversion fails |
| Dv360Lines.ItemRowStep | gInvoiceParser/extractor/dv360.py:114-132 | the row of a line whose search finds, at its start, a match capturing the fields is the row of those fields |
| Dv360Lines.LineRow | gInvoiceParser/extractor/dv360.py:114-132 | the row of the block written from well-formed fields is the row of those fields |
| Dv360Lines.LineRows | gInvoiceParser/extractor/dv360.py:114-132 | the detail rows of that one merged line: the fields' row, or none when a conversion fails |
| Dv360Lines.ExamplePositions | gInvoiceParser/extractor/dv360.py:111 | the groups of the worked example's match, at the offsets of its fields |
| Dv360Lines.ExampleFound | gInvoiceParser/extractor/dv360.py:110-115 | `pattern.search` on the worked example `Media Cost - Partner: Acme Media - Constellation ID: 1234 - Advertiser: Fall Brands ID: 5678 1,000 Impressions 12.50` matches at its start, each group on its field |
| Dv360Lines.ExampleRow | gInvoiceParser/extractor/dv360.py:117-130 | the worked example's row: the names and ids as written, 1,000 as 1000 and 12.50 as a decimal |
| Dv360Lines.ExampleRows | gInvoiceParser/extractor/dv360.py:114-132 | the detail rows of the worked example: exactly that row |
| Dv360.Details | gInvoiceParser/extractor/dv360.py:114-132 | the loop method computes the rows of the reference definition |
| Dv360.Extract | gInvoiceParser/extractor/dv360.py:72-136 | the summary row holds the header, and the details are the rows of the merged, cleaned detail lines |
| Dv360.HeaderOf | gInvoiceParser/extractor/dv360.py:74-80 | the invoice number, the month range and the total, each with its fallback when its search fails |
| Cm360.Flatten | gInvoiceParser/extractor/cm360.py:3-13 | a block that is not a list is returned unchanged |
| Cm360.LeavesOfAppend | gInvoiceParser/extractor/cm360.py:4-9 | the strings of a list of items are the strings of each item, one after the other |
| Cm360.NestingIsTransparent | gInvoiceParser/extractor/cm360.py:4-9 | a list nested in a list contributes its strings in its place, as if it were spliced in |
| Cm360.LeavesOfLeafList | gInvoiceParser/extractor/cm360.py:11-12 | a flat list of strings yields exactly those strings and flattens to them joined by newlines |
| Cm360.FlattenIdempotent | gInvoiceParser/extractor/cm360.py:3-13 | flattening a flattened block changes nothing, and re-wrapping a block's strings as a flat list flattens to the same text |
| Cm360.InvoiceNumberAt | gInvoiceParser/extractor/cm360.py:21 | a match of `Invoice number:\s*(\d+)` at a position: the literal, whitespace, then a maximal non-empty digit run |
| Cm360.FindInvoiceNumber | gInvoiceParser/extractor/cm360.py:21 | `re.search`: the leftmost position where the pattern matches, and no match anywhere when it returns none |
| Cm360.InvoiceNumberField | gInvoiceParser/extractor/cm360.py:27 | "N/A" exactly when there is no match; otherwise the captured digits, which are non-empty digits |
| Cm360.DigitsNotNA | gInvoiceParser/extractor/cm360.py:27-29 | a captured digit run can never be confused with the "N/A" sentinel |
| Cm360.WordDateAt | gInvoiceParser/extractor/cm360.py:22 | `\w+ \d{1,2}, \d{4}` at a position: a non-empty word run followed by the day and year tail |
| Cm360.SecondDateAt | gInvoiceParser/extractor/cm360.py:22 | `\s*-\s*` then the second date: whitespace, a dash, whitespace, a date |
| Cm360.RangeAt | gInvoiceParser/extractor/cm360.py:22 | a range match at a position is a first date there, then the dash and the second date right after it |
| Cm360.FindRange | gInvoiceParser/extractor/cm360.py:22 | the leftmost range match, and none anywhere when it returns none |
| Cm360.RangeBounds | gInvoiceParser/extractor/cm360.py:22 | both dates of a range match lie inside the text |
| Cm360.MonthField | gInvoiceParser/extractor/cm360.py:28 | "N/A" exactly when there is no range; otherwise the two dates joined by " - " |
| Cm360.AdvertiserIdAt | gInvoiceParser/extractor/cm360.py:23 | `Advertiser Id:?[:\s]+(\d+)`: the literal, a non-empty run of colons and spaces, a maximal digit run |
| Cm360.FindAdvertiserId | gInvoiceParser/extractor/cm360.py:23 | the leftmost advertiser id match, and none anywhere when it returns none |
| Cm360.AdvertiserIdField | gInvoiceParser/extractor/cm360.py:29 | "N/A" exactly when there is no match; otherwise the captured non-empty digits |
| Cm360.TotalLabelAt | gInvoiceParser/extractor/cm360.py:24 | `Total (amount due\|in USD)` ignoring case: which alternative matched, trying "amount due" first |
| Cm360.DollarAt | gInvoiceParser/extractor/cm360.py:24 | `\s*\$([\d,]+\.\d{2})`: whitespace, a dollar sign, then an amount with two decimals |
| Cm360.DollarFrom | gInvoiceParser/extractor/cm360.py:24 | the dollar sign and the amount group right after it |
| Cm360.TotalAt | gInvoiceParser/extractor/cm360.py:24 | a total match is a label followed by a dollar amount, and the group is an amount |
| Cm360.FindTotal | gInvoiceParser/extractor/cm360.py:24 | the leftmost total match, and none anywhere when it returns none |
| Cm360.TotalGroup | gInvoiceParser/extractor/cm360.py:24 | the group a total search captures is an amount with two decimals |
| Cm360.TotalText | gInvoiceParser/extractor/cm360.py:24-30 | the captured total is never "N/A" and, without commas, has two decimals |
| Cm360.TotalIgnoresCase | gInvoiceParser/extractor/cm360.py:24 | `re.IGNORECASE`: two texts that differ only in letter case give the same match and the same total field |
| Cm360.FindTotalAgrees | gInvoiceParser/extractor/cm360.py:24 | the total search depends only on the characters its pattern reads outside the labels |
| Cm360.TotalField | gInvoiceParser/extractor/cm360.py:30 | "N/A" exactly when there is no total; otherwise the captured text, which has two decimals once commas are dropped |
| Cm360.SummaryRowOf | gInvoiceParser/extractor/cm360.py:32-46 | the summary row carries the header fields, "TOTAL", "Total" and the total text |
| Cm360.FiguresAt | gInvoiceParser/extractor/cm360.py:50 | `\s+([\d\.]+)\s+([\d,]+)\s+([\d\.]+)` after "CPM": the three figures, each in its class |
| Cm360.FiguresAtComplete | gInvoiceParser/extractor/cm360.py:50 | the figures have exactly one parse, the one the recogniser finds |
| Cm360.CpmAt | gInvoiceParser/extractor/cm360.py:50 | `\s*CPM` after "Fee:": whitespace then the literal |
| Cm360.FeeTailAt | gInvoiceParser/extractor/cm360.py:50 | the `\s*-\s*Fee:\s*CPM` part and its figures parse |
| Cm360.CodeAt | gInvoiceParser/extractor/cm360.py:50 | `[\w\-]+` backtracks: the longest code after which the fee part matches, and no longer code works |
| Cm360.QuotedIdAt | gInvoiceParser/extractor/cm360.py:50 | `", ID:\s*(\d+)`: the closing quote, the literal, whitespace and a maximal digit run |
| Cm360.BillingAt | gInvoiceParser/extractor/cm360.py:50 | `, Billing Code:\s*` and then the billing code with its fee part |
| Cm360.CampaignTailAt | gInvoiceParser/extractor/cm360.py:50 | after the campaign name: the campaign id, then the billing code and fee part |
| Cm360.CampaignAt | gInvoiceParser/extractor/cm360.py:50 | lazy `.+?` campaign: the first end after which the rest matches, at least one character on |
| Cm360.QuoteAt | gInvoiceParser/extractor/cm360.py:50 | `\s*\n?"`: whitespace, then the opening quote |
| Cm360.CampaignOpenAt | gInvoiceParser/extractor/cm360.py:50 | `\s*-\s*Campaign:\s*\n?"` after the advertiser id |
| Cm360.AdvertiserTailAt | gInvoiceParser/extractor/cm360.py:50 | after the advertiser name: its id, the campaign opening, and the campaign with its tail |
| Cm360.AdvertiserTailWith | gInvoiceParser/extractor/cm360.py:50 | the advertiser tail from its three parts, each matched where the one before it ends |
| Cm360.NameAt | gInvoiceParser/extractor/cm360.py:50 | lazy `.+?` advertiser name: the first end after which the rest matches |
| Cm360.ItemAt | gInvoiceParser/extractor/cm360.py:49-52 | a match at a position: "Advertiser: ", the optional quote tried first, then the name and its tail; a failure with the quote falls back to no quote |
| Cm360.ItemShapeOf | gInvoiceParser/extractor/cm360.py:50 | every group of a match is non-empty, in the pattern's order and in its character class |
| Cm360.ItemAtsAdvance | gInvoiceParser/extractor/cm360.py:54 | every match ends after it starts, so `finditer` makes progress |
| Cm360.FindItems | gInvoiceParser/extractor/cm360.py:54 | `finditer`: every result is a match at its position, and the results do not overlap and are in order |
| Cm360.FindItemsGaps | gInvoiceParser/extractor/cm360.py:54 | no match starts before the first result or between two results |
| Cm360.FindItemsNone | gInvoiceParser/extractor/cm360.py:54 | no results means the pattern matches nowhere |
| Cm360.DecimalOf | gInvoiceParser/extractor/cm360.py:66-68 | `float` of a `[\d\.]+` group succeeds exactly when it is a decimal literal |
| Cm360.TwoPointsFail | gInvoiceParser/extractor/cm360.py:66-68 | a group with two points such as "1.2.3" makes `float` raise |
| Cm360.QuantityOf | gInvoiceParser/extractor/cm360.py:67 | `int(group.replace(",", ""))` succeeds exactly when some digit is left, and is the value of those digits |
| Cm360.ItemRowOf | gInvoiceParser/extractor/cm360.py:55-69 | a detail row: `ValueError` exactly when one conversion fails; otherwise the header fields, "CPM", stripped names, the ids and code as captured, and the converted figures |
| Cm360.ItemRowFields | gInvoiceParser/extractor/cm360.py:59-63 | the ids of a row are non-empty digits, its code is word characters and dashes, and its names are stripped |
| Cm360.MatchRowsSpec | gInvoiceParser/extractor/cm360.py:55-69 | converting one match raises only `ValueError`, and otherwise gives a "CPM" row that repeats the header |
| Cm360.RowsOf | gInvoiceParser/extractor/cm360.py:54-69 | when the loop completes it has one row per match |
| Cm360.RowsOfSpec | gInvoiceParser/extractor/cm360.py:54-69 | the loop completes exactly when every match converts, and then row k is the conversion of match k |
| Cm360.RowsOfError | gInvoiceParser/extractor/cm360.py:54-69 | a loop that fails raises `ValueError` |
| Cm360Lines.TextFigures | gInvoiceParser/extractor/cm360.py:50 | after one space, the three figures of well-formed fields match, each group at its field's offset |
| Cm360Lines.TextFee | gInvoiceParser/extractor/cm360.py:50 | ` - Fee: CPM ` and the figures match at the fields' offsets |
| Cm360Lines.LastFee | gInvoiceParser/extractor/cm360.py:50 | the backtracking of `[\w\-]+` stops at once when the fee part matches at the longest end |
| Cm360Lines.TextCode | gInvoiceParser/extractor/cm360.py:50 | the greedy billing code ends at the end of the code field, with the fee part after it |
| Cm360Lines.TextBilling | gInvoiceParser/extractor/cm360.py:50 | `, Billing Code: ` then the code and the fee part, at the fields' offsets |
| Cm360Lines.TextCampaignTail | gInvoiceParser/extractor/cm360.py:50 | the campaign id, the billing code and the fee part of a well-formed line, at the fields' offsets |
| Cm360Lines.NoCampaignTails | gInvoiceParser/extractor/cm360.py:50 | no campaign tail starts inside a run without quotes: the lazy campaign group cannot stop early |
| Cm360Lines.CampaignStep | gInvoiceParser/extractor/cm360.py:50 | the lazy campaign group ends at the first quote where the campaign tail matches |
| Cm360Lines.TextCampaign | gInvoiceParser/extractor/cm360.py:50 | the campaign group of a well-formed line ends at the end of the campaign field, with its tail |
| Cm360Lines.AdvertiserTailStep | gInvoiceParser/extractor/cm360.py:50 | the advertiser tail from its three matched parts: the id, the campaign opening and the campaign |
| Cm360Lines.TextAdvertiserTail | gInvoiceParser/extractor/cm360.py:50 | the advertiser id, the campaign and its tail of a well-formed line, at the fields' offsets |
| Cm360Lines.NoAdvertiserTails | gInvoiceParser/extractor/cm360.py:50 | no advertiser tail starts inside a run without quotes |
| Cm360Lines.NameEnd | gInvoiceParser/extractor/cm360.py:50 | the lazy advertiser name ends at the first place where the advertiser tail matches |
| Cm360Lines.NameStep | gInvoiceParser/extractor/cm360.py:50 | the lazy advertiser name before the first quote where the tail matches, with that tail |
| Cm360Lines.TextName | gInvoiceParser/extractor/cm360.py:50 | the advertiser group of a well-formed line ends at the end of the advertiser field, with everything after it |
| Cm360Lines.ItemStep | gInvoiceParser/extractor/cm360.py:50 | `Advertiser: "?` takes the quote when the rest matches after it |
| Cm360Lines.TextItem | gInvoiceParser/extractor/cm360.py:49-52 | the pattern matches where a line written from well-formed fields starts, the quote taken and each group at its field's offset |
| Cm360Lines.LineMatch | gInvoiceParser/extractor/cm360.py:49-52 | the pattern matches at the start of the line written from well-formed fields |
| Cm360Lines.LineEnd | gInvoiceParser/extractor/cm360.py:50 | that match runs to the end of the line |
| Cm360Lines.LineItems | gInvoiceParser/extractor/cm360.py:54 | `finditer` on such a line yields exactly one match, from its start to its end |
| Cm360Lines.LineSlices | gInvoiceParser/extractor/cm360.py:50 | every group of the match on the line captures the field it was written from |
| Cm360Lines.RowOfFields | gInvoiceParser/extractor/cm360.py:55-69 | converting a match whose groups capture the fields succeeds exactly when the price and the amount are decimal literals and the quantity keeps a digit, and then gives the row of those fields |
| Cm360Lines.RowsOfOne | gInvoiceParser/extractor/cm360.py:54-69 | a text whose one match starts at its start: the loop gives that match's row, or raises `ValueError` when its conversion fails |
| Cm360Lines.LineRow | gInvoiceParser/extractor/cm360.py:55-69 | the conversion of the match on the line written from well-formed fields is the row of those fields, or fails exactly when a figure does not convert |
| Cm360Lines.LineRows | gInvoiceParser/extractor/cm360.py:54-69 | the detail rows of that line: exactly the fields' row when the figures convert, `ValueError` otherwise |
| Cm360Lines.FieldsRowOf | gInvoiceParser/extractor/cm360.py:55-69 | the row of fields whose names need no stripping: the fields as written and the figures' values |
| Cm360Lines.ExampleRow | gInvoiceParser/extractor/cm360.py:55-69 | the worked example's row: the names and codes as written, 5.25 and 52.50 as decimals, 10,000 as 10000 |
| Cm360Lines.ExampleRows | gInvoiceParser/extractor/cm360.py:54-69 | the detail rows of the worked example `Advertiser: "Acme Co", ID: 123456 - Campaign: "Fall Promo", ID: 654321, Billing Code: ABC-123 - Fee: CPM 5.25 10,000 52.50`: exactly that row |
| Cm360.RowsCarryHeader | gInvoiceParser/extractor/cm360.py:55-65 | every detail row repeats the header and has "CPM" as fee and unit |
| Cm360.Details | gInvoiceParser/extractor/cm360.py:54-69 | the loop method computes the rows of the reference definition, error included |
| Cm360.Extract | gInvoiceParser/extractor/cm360.py:15-71 | the result is `([], [summary] + rows)` exactly when the loop completes, and `ValueError` otherwise |
| Cm360.Leaves | gInvoiceParser/extractor/cm360.py:4-9 | `recursive_flatten`: the strings of a block depth first; `NestingIsTransparent` and `LeavesOfAppend` state it |
| Cm360.HeaderOf | gInvoiceParser/extractor/cm360.py:21-30 | the invoice number, date range, advertiser id and total of the summary row, each `N/A` when its search fails |
| LinkedIn.ColonGap | gInvoiceParser/extractor/linkedin.py:6 | `\s*[:]*\s*` reads a run of colons and spaces |
| LinkedIn.ColonGapComplete | gInvoiceParser/extractor/linkedin.py:6 | any split of spaces, colons, spaces followed by a character outside both ends where the recogniser ends |
| LinkedIn.InvoiceNumberAt | gInvoiceParser/extractor/linkedin.py:6 | a match of `Invoice Number\s*[:]*\s*(\d+)`: the literal, the gap, a maximal non-empty digit run |
| LinkedIn.InvoiceNumberAtComplete | gInvoiceParser/extractor/linkedin.py:6 | every way the pattern can match at a position is the match the recogniser returns |
| LinkedIn.FindInvoiceNumber | gInvoiceParser/extractor/linkedin.py:6 | `re.search`: the leftmost match, and none anywhere when it returns none |
| LinkedIn.InvoiceNumberField | gInvoiceParser/extractor/linkedin.py:7 | "N/A" exactly when there is no match; otherwise the captured non-empty digits |
| LinkedIn.PeriodAt | gInvoiceParser/extractor/linkedin.py:10 | `Billing Period From\s+(\d{2}-[A-Z]{3}-\d{4})`: the literal, whitespace, an 11-character date |
| LinkedIn.PeriodAtComplete | gInvoiceParser/extractor/linkedin.py:10 | every match of the pattern at a position is found |
| LinkedIn.FindPeriod | gInvoiceParser/extractor/linkedin.py:10 | a found period is a match, and none means no match anywhere |
| LinkedIn.MonthField | gInvoiceParser/extractor/linkedin.py:11 | the month is the fixed "Dec 2024" exactly when a billing period is found, and "N/A" exactly when not |
| LinkedIn.MonthIgnoresDate | gInvoiceParser/extractor/linkedin.py:10-11 | two texts with any billing periods at all get the same month, whatever dates they hold |
| LinkedIn.UsdAmountAt | gInvoiceParser/extractor/linkedin.py:14 | `USD\s*([\d,]+\.\d{2})`: the literal, whitespace, an amount with two decimals |
| LinkedIn.UsdAmountAtComplete | gInvoiceParser/extractor/linkedin.py:14 | every such match after "USD" is found |
| LinkedIn.BalanceAt | gInvoiceParser/extractor/linkedin.py:14 | `Balance Due\s*[:]*\s*` then the USD amount |
| LinkedIn.BalanceAtComplete | gInvoiceParser/extractor/linkedin.py:14 | every match of the balance pattern at a position is found |
| LinkedIn.FindBalance | gInvoiceParser/extractor/linkedin.py:14 | the leftmost balance match, and none anywhere when it returns none |
| LinkedIn.BalanceGroup | gInvoiceParser/extractor/linkedin.py:14 | the captured balance is an amount with two decimals |
| LinkedIn.TotalField | gInvoiceParser/extractor/linkedin.py:15 | 0.0 when there is no balance; otherwise the value of the captured amount with its commas dropped |
| LinkedIn.NumberEnd | gInvoiceParser/extractor/linkedin.py:28 | `\d+(?:\.\d{2})?`: the digit run, with two decimals when they follow |
| LinkedIn.NumberTextOf | gInvoiceParser/extractor/linkedin.py:28 | a digit run, with or without two decimals, is a number of that form |
| LinkedIn.NumberValue | gInvoiceParser/extractor/linkedin.py:37-38 | `float` of such a number: an integer value, or a value with two decimals |
| LinkedIn.SpacedNumberAt | gInvoiceParser/extractor/linkedin.py:28 | `\s+` then a number |
| LinkedIn.SpacedCountAt | gInvoiceParser/extractor/linkedin.py:28 | `\s+\d+`: the uncaptured count |
| LinkedIn.TailAt | gInvoiceParser/extractor/linkedin.py:28 | after the name: the quantity, the count and the amount, in that order |
| LinkedIn.NameFrom | gInvoiceParser/extractor/linkedin.py:28 | lazy `(.*?)` that stops at a newline: the first end after which the tail matches |
| LinkedIn.DetailAt | gInvoiceParser/extractor/linkedin.py:27-29 | "Campaign:", then `\s+` backtracking from its longest run, then the lazy name and its tail |
| LinkedIn.DetailShapeOf | gInvoiceParser/extractor/linkedin.py:28 | every group of a match is in place and of its form |
| LinkedIn.DetailAtsAdvance | gInvoiceParser/extractor/linkedin.py:31 | every match ends after it starts, so `finditer` makes progress |
| LinkedIn.FindDetails | gInvoiceParser/extractor/linkedin.py:31 | `finditer`: every result is a match at its position, in order and without overlap |
| LinkedIn.FindDetailsGaps | gInvoiceParser/extractor/linkedin.py:31 | no match starts before the first result or between two results |
| LinkedIn.FindDetailsNone | gInvoiceParser/extractor/linkedin.py:31 | no results means no match anywhere |
| LinkedIn.RowOf | gInvoiceParser/extractor/linkedin.py:32-40 | a detail row repeats the header and holds the stripped campaign name |
| LinkedIn.DetailRowsSpec | gInvoiceParser/extractor/linkedin.py:31-40 | one row per match, in order, each the row of that match |
| LinkedIn.DetailRowsCarryHeader | gInvoiceParser/extractor/linkedin.py:32-40 | every detail row repeats the header and has a stripped campaign name |
| LinkedIn.Details | gInvoiceParser/extractor/linkedin.py:31-40 | the loop method computes the rows of the reference definition |
| LinkedIn.Extract | gInvoiceParser/extractor/linkedin.py:4-43 | one summary row, and the detail rows of the detail text under the summary's header |
| LinkedIn.HeaderOf | gInvoiceParser/extractor/linkedin.py:6-11 | the invoice number and the month every row carries |
| LinkedIn.SummaryOf | gInvoiceParser/extractor/linkedin.py:6-23 | the one summary row: type, invoice number, month and the balance due, `0.0` when it is missing |
| LinkedIn.DetailRows | gInvoiceParser/extractor/linkedin.py:26-40 | a row per `finditer` match, in order; `DetailRowsSpec` and `DetailRowsCarryHeader` state it |
| Dispatch.RunYields | gInvoiceParser/parser.py:69-85 | whatever an extractor returns, the driver keeps at most one frame from it, non-empty and of the extractor's own product |
| Dispatch.GetExtractorTag | gInvoiceParser/parser.py:13-20 | an entry of `extractor_map` is filed under the tag of its own product |
| Dispatch.KeepFrameYields | gInvoiceParser/parser.py:78-83 | only a non-empty data frame is appended |
| Dispatch.Sa360Yields | gInvoiceParser/parser.py:69-83 | the SA360 extractor always leaves exactly its whole table |
| Dispatch.WorkspaceYields | gInvoiceParser/parser.py:69-83 | the Google Workspace extractor always leaves exactly its whole table |
| Dispatch.AdsYields | gInvoiceParser/parser.py:69-87 | the Google Ads extractor leaves its rows when it returns rows, and nothing when it returns `None` or raises |
| Dispatch.RunCases | gInvoiceParser/parser.py:69-87 | each extractor's outcome, and nothing for the CM360, DV360 and LinkedIn extractors, which fail or return no data frame on the driver's arguments |
| Dispatch.YieldsProduct | gInvoiceParser/parser.py:78-83 | a frame filed under a product's tag was built by that product's extractor, since no two families share a tag |
| Dispatch.KeepFrame | gInvoiceParser/parser.py:82-85 | a returned data frame is kept only when it is not empty; `KeepFrameYields` states it |
| Dispatch.Run | gInvoiceParser/parser.py:69-87 | the frames the driver keeps from one extractor call; `RunYields` and `RunCases` state them |
| Registry.DefaultMap | gInvoiceParser/parser.py:13-20 | the map holds exactly the six product tags |
| Registry.DefaultMapBehaves | gInvoiceParser/parser.py:13-20 | every entry of the map yields only frames of the tag it is filed under |
| Registry.DefaultCall | gInvoiceParser/parser.py:118-119 | `get_extractor` finds an entry exactly for the entries of the map, and the entry calls that product's extractor |
| Registry.DocumentFramesYield | gInvoiceParser/parser.py:57-83 | with a well-behaved map, one document adds at most one non-empty frame, of the product it was identified as |
| Registry.DefaultDocument | gInvoiceParser/parser.py:57-77 | with `extractor_map`, a document's frames are those of its product's extractor called with the header's fields, and none for an unknown product |
| Registry.Sa360Document | gInvoiceParser/parser.py:57-83 | an SA360 document adds exactly its table, built with the SA360 number and month |
| Registry.WorkspaceDocument | gInvoiceParser/parser.py:57-83 | a Google Workspace document adds exactly its table |
| Registry.AdsDocument | gInvoiceParser/parser.py:57-87 | a Google Ads document adds its rows when its extractor returns rows, otherwise nothing |
| Registry.UnproductiveDocument | gInvoiceParser/parser.py:57-89 | a CM360, DV360, LinkedIn or unknown document adds nothing |
| Registry.Bind | gInvoiceParser/parser.py:13-20 | the map entry of an extractor: the call with the driver's four arguments |
| Registry.DocumentKey | gInvoiceParser/parser.py:57 | the tag the classifier gives a document |
| Registry.Arguments | gInvoiceParser/parser.py:59-77 | the invoice number and month passed to the extractor, after the SA360 override, `None` read as the empty string |
| Registry.DocumentFrames | gInvoiceParser/parser.py:69-89 | the frames one opened document adds; `DocumentFramesYield` and `DefaultDocument` state them |
| Batch.Outcomes | gInvoiceParser/parser.py:46-91 | one outcome per file, in the listing's order, each that file's read and extraction |
| Batch.AccumulateSpec | gInvoiceParser/parser.py:78-83 | after the loop each product's list is its old list followed by the frames of that product from the documents in order, and a product is a key exactly when it had one or gained a frame |
| Batch.StoredKeys | gInvoiceParser/parser.py:78-83 | only SA360, Google Ads and Google Workspace ever become keys |
| Batch.OutcomeYields | gInvoiceParser/parser.py:46-91 | with a well-behaved map, a document's outcome adds at most one frame of its own product |
| Batch.StoreStored | gInvoiceParser/parser.py:78-83 | appending one document keeps every list non-empty and filed under its frames' product |
| Batch.AccumulateStored | gInvoiceParser/parser.py:46-91 | the loop keeps every list non-empty and filed under its frames' product |
| Batch.LoopStep | gInvoiceParser/parser.py:46-83 | one loop iteration extends the accumulated dictionary by that document |
| Batch.AccumulateAppend | gInvoiceParser/parser.py:46-91 | processing two listings one after the other is processing their concatenation |
| Batch.SkippedOutcome | gInvoiceParser/parser.py:84-91 | a document that raises or adds no frame leaves the dictionary as it was |
| Batch.PdfList | gInvoiceParser/parser.py:45 | the explicit file list when it is non-empty, the directory listing otherwise |
| Batch.SuperHeroFlex.constructor | gInvoiceParser/parser.py:36-42 | a blank directory is dropped, the file list is kept, the results are empty and the map is `extractor_map` |
| Batch.SuperHeroFlex.Create | gInvoiceParser/parser.py:39-40 | construction raises `ValueError` exactly when neither a directory nor files are given |
| Batch.SuperHeroFlex.GetExtractor | gInvoiceParser/parser.py:118-119 | `dict.get`: the entry of the tag, `None` exactly when the tag has none |
| Batch.SuperHeroFlex.ProcessDocument | gInvoiceParser/parser.py:57-83 | the frames one opened document adds, as the document specification states them |
| Batch.SuperHeroFlex.OpenDocument | gInvoiceParser/parser.py:47-91 | the outcome of opening one file: nothing when the read raises, else its key and frames |
| Batch.SuperHeroFlex.ExtractAll | gInvoiceParser/parser.py:44-91 | the results are the old results accumulated over the outcomes of the listed files in order, nothing else changes, and the object invariant is kept |
| Batch.Store | gInvoiceParser/parser.py:78-83 | appending a document's frames under its tag, the key created by the first append; `StoreLookup` states it |
| Batch.Accumulate | gInvoiceParser/parser.py:46-91 | the dictionary after the loop has handled every outcome in order; `AccumulateSpec` relates it to the reference `FramesUnder` |
| Batch.HasInput | gInvoiceParser/parser.py:39-40 | the constructor's test: a non-empty directory name or at least one path |
| Batch.SuperHeroFlex.Valid | gInvoiceParser/parser.py:36-42 | the object invariant: some input, every stored list non-empty and of its tag's family, a well-behaved map |

## Left out

- PDF text extraction (`pdfplumber`), the directory glob and every `print` are
  I/O. They become the parameters `read` and `listing` of `Batch.SuperHeroFlex.ExtractAll`,
  or are dropped.
- `export_by_product`, which writes Excel files, is I/O and is not modelled.
  `gui.py`, `update.py` and `extractor/main.py` are not part of this model.
- Python dictionaries keep insertion order. The model's `map` does not, so the
  order in which product tags first appear in `results_by_product` is not modelled.
  Each tag's list of frames is modelled in order.
- Floating point is modelled as exact decimals. Rounding of `float` is not modelled.
- `\s`, `\d` and `\w` are their ASCII classes (with `str.isspace` for `\s`), and
  `re.IGNORECASE` folds ASCII letters only. Unicode classes and case folding are not modelled.
- Text.BaseName: it models `Path(filename).name` for POSIX paths only. The
  normalisation of `str(Path(p))` applied to the file names is not modelled:
  `pathlib` drops `.` components and repeated slashes, so `Path(".").name` is
  empty and `Path("x/.").name` is `"x"`, where `BaseName` gives `"."` for both.
  File names that come from the directory listing are already normalised.
- Parameters that an extractor never reads are not part of its model:
  - LinkedIn's and DV360's `tables` and `filename`, which is used only in a debug print;
  - CM360's `full_text`, `summary_text` and `tables`.
- Cm360.Flatten: the nested detail text holds strings only. A non-string leaf,
  which `"\n".join` would reject, is not modelled.
- Dv360.ItemAt: it is proved sound for the line-item pattern. Completeness is
  proved only for blocks written from well-formed fields (`Dv360Lines.LineItem`):
  there `pattern.search` finds the line item at the start, with every group on
  its field. It is not proved for arbitrary text, because the three nested lazy
  groups make that proof beyond the verifier's resource budget.
- Cm360.ItemAt: it is proved sound, with the lazy name groups and the
  backtracking billing code modelled in the order Python tries them. Completeness
  is proved for the figures (`Cm360.FiguresAtComplete`) and for lines written from
  well-formed fields (`Cm360Lines.LineItems`), not for arbitrary text, for the same reason.
- Workspace.Extract: the branch that returns `None` (`DataFrame(rows) if rows else None`)
  is modelled, and its ensures proves the branch is never taken, because the
  summary row is always present.
- The catch-all `except Exception` of `extract_all` covers only the failures the
  model can name: a read that raises becomes `None` from `read`. The
  extractors' own failures become `Result.Err` or no frame.
