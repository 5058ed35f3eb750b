/**
 * `extractor_map` as the driver holds it: a dictionary from product tag to
 * the extractor function, and what one opened document contributes once
 * its product picks an entry of that dictionary.
 */
module Registry {
  import opened Options
  import opened Parser
  import opened Dispatch
  import Sa360
  import GoogleAds
  import Workspace

  /** An extractor as the driver calls it: pages, invoice number, file name, month; the frames it keeps. */
  type ExtractorFn = (Pages, string, string, string) -> seq<Frame>

  /** The entry for one extractor. */
  function Bind(e: Extractor): ExtractorFn {
    (pages: Pages, num: string, filename: string, month: string) => Run(e, pages, num, filename, month)
  }

  /** `extractor_map`: the parser's six tags, each with its extractor. */
  function DefaultMap(): (m: map<string, ExtractorFn>)
    ensures m.Keys == ExtractorMap.Keys
  {
    map tag | tag in ExtractorMap :: Bind(ExtractorMap[tag])
  }

  /** On every input, the function yields only frames of the family `tag`. */
  ghost predicate Behaves(fn: ExtractorFn, tag: string) {
    forall pages: Pages, num: string, filename: string, month: string :: Yields(fn(pages, num, filename, month), tag)
  }

  /** Every function of the map yields frames of the tag it is filed under only. */
  ghost predicate WellBehaved(m: map<string, ExtractorFn>) {
    forall tag | tag in m :: Behaves(m[tag], tag)
  }

  /** The map the driver starts with is well behaved. */
  lemma DefaultMapBehaves()
    ensures WellBehaved(DefaultMap())
  {
    forall tag | tag in DefaultMap() ensures Behaves(DefaultMap()[tag], tag) {
      var e := ExtractorMap[tag];
      GetExtractorTag(tag);
      forall pages: Pages, num: string, filename: string, month: string
        ensures Yields(DefaultMap()[tag](pages, num, filename, month), tag)
      {
        RunYields(e, pages, num, filename, month);
      }
    }
  }

  // ---------------------------------------------------------------------------
  // One document
  // ---------------------------------------------------------------------------

  /** The product tag under which a document's frames are stored. */
  function DocumentKey(pages: Pages): string {
    ProductName(IdentifyProduct(pages))
  }

  /** The invoice number and month handed to the extractor: the (SA360-overridden) header, `None` read as "". */
  function Arguments(pages: Pages): (string, string) {
    var h := OverrideHeader(IdentifyProduct(pages), pages);
    (OrElse(h.invoiceNum, ""), OrElse(h.invoiceMonth, ""))
  }

  /**
   * The frames one opened document adds: its product tag picks the entry
   * of `m`, which is called with the header's fields; a tag without an
   * entry adds nothing.
   */
  function DocumentFrames(m: map<string, ExtractorFn>, pages: Pages, filename: string): seq<Frame> {
    var key := DocumentKey(pages);
    if key in m then m[key](pages, Arguments(pages).0, filename, Arguments(pages).1) else []
  }

  /** With a well-behaved map, a document adds at most one frame, non-empty and of its own family. */
  lemma DocumentFramesYield(m: map<string, ExtractorFn>, pages: Pages, filename: string)
    requires WellBehaved(m)
    ensures Yields(DocumentFrames(m, pages, filename), DocumentKey(pages))
  {
  }

  /** An entry of `extractor_map` is there exactly for the parser's tags, and calls that tag's extractor. */
  lemma DefaultCall(key: string, pages: Pages, num: string, filename: string, month: string)
    ensures key in DefaultMap() <==> GetExtractor(key).Some?
    ensures key in DefaultMap() ==> DefaultMap()[key](pages, num, filename, month) == Run(GetExtractor(key).value, pages, num, filename, month)
  {
  }

  /** With `extractor_map`, a document's frames are its extractor's. */
  lemma DefaultDocument(pages: Pages, filename: string)
    ensures var e := ExtractorFor(IdentifyProduct(pages));
      DocumentFrames(DefaultMap(), pages, filename)
        == if e.None? then [] else Run(e.value, pages, Arguments(pages).0, filename, Arguments(pages).1)
  {
    GetExtractorKnownTags(DocumentKey(pages));
    DefaultCall(DocumentKey(pages), pages, Arguments(pages).0, filename, Arguments(pages).1);
  }

  /** An SA360 document adds exactly its table, built with the SA360 invoice number and month. */
  lemma Sa360Document(pages: Pages, filename: string)
    requires IdentifyProduct(pages) == SA360
    ensures DocumentFrames(DefaultMap(), pages, filename)
      == [Sa360Frame(Sa360.Table(pages, Arguments(pages).0, filename, Arguments(pages).1))]
  {
    DefaultDocument(pages, filename);
    Sa360Yields(pages, Arguments(pages).0, filename, Arguments(pages).1);
  }

  /** A Google Workspace document adds exactly its table. */
  lemma WorkspaceDocument(pages: Pages, filename: string)
    requires IdentifyProduct(pages) == GOOGLE_WORKSPACE
    ensures DocumentFrames(DefaultMap(), pages, filename)
      == [WorkspaceFrame(Workspace.Table(pages, Arguments(pages).0, filename, Arguments(pages).1))]
  {
    DefaultDocument(pages, filename);
    WorkspaceYields(pages, Arguments(pages).0, filename, Arguments(pages).1);
  }

  /** A Google Ads document adds its rows when the extractor returns rows, and nothing when it returns `None` or raises. */
  lemma AdsDocument(pages: Pages, filename: string)
    requires IdentifyProduct(pages) == GOOGLE_ADS
    ensures var t := GoogleAds.Table(pages, GoogleAds.Meta(Arguments(pages).0, filename, Arguments(pages).1));
      DocumentFrames(DefaultMap(), pages, filename) == if t.Ok? && t.value.Some? then [AdsFrame(t.value.value)] else []
  {
    DefaultDocument(pages, filename);
    AdsYields(pages, Arguments(pages).0, filename, Arguments(pages).1);
  }

  /**
   * A CM360, DV360, LinkedIn or unrecognised document adds nothing: the
   * first three extractors are called with arguments they do not expect,
   * and the last has no extractor.
   */
  lemma UnproductiveDocument(pages: Pages, filename: string)
    requires IdentifyProduct(pages) in {CM360, DV360, LINKEDIN, UNKNOWN}
    ensures DocumentFrames(DefaultMap(), pages, filename) == []
  {
    var key := DocumentKey(pages);
    var num, month := Arguments(pages).0, Arguments(pages).1;
    GetExtractorKnownTags(key);
    DefaultCall(key, pages, num, filename, month);
    if key in DefaultMap() {
      var e := GetExtractor(key).value;
      assert e in {ExtractCm360, ExtractDv360, ExtractLinkedin};
      RunCases(e, pages, num, filename, month);
    }
  }
}
