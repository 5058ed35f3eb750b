/**
 * The extractors as `SuperHeroFlex.extract_all` calls them: every entry of
 * `extractor_map` is called with the page dictionary, the invoice number,
 * the file name and the month, and what it returns is turned into the data
 * frames the driver keeps.
 */
module Dispatch {
  import opened Options
  import opened Parser
  import Sa360
  import GoogleAds
  import Workspace

  // ---------------------------------------------------------------------------
  // Frames
  // ---------------------------------------------------------------------------

  /** A data frame an extractor returned, tagged by the family whose rows it holds. */
  datatype Frame =
    | Sa360Frame(sa360Rows: seq<Sa360.Row>)
    | AdsFrame(adsRows: seq<GoogleAds.AdsRow>)
    | WorkspaceFrame(workspaceRows: seq<Workspace.WsRow>)

  /** `not df.empty`. */
  predicate NonEmptyFrame(f: Frame) {
    match f
    case Sa360Frame(rows) => rows != []
    case AdsFrame(rows) => rows != []
    case WorkspaceFrame(rows) => rows != []
  }

  /** The family whose extractor builds frames of this kind. */
  function FrameProduct(f: Frame): Product {
    match f
    case Sa360Frame(_) => SA360
    case AdsFrame(_) => GOOGLE_ADS
    case WorkspaceFrame(_) => GOOGLE_WORKSPACE
  }

  /** The product tag of the family whose extractor builds frames of this kind. */
  function FrameKey(f: Frame): string {
    ProductName(FrameProduct(f))
  }

  /** The frames `extract_all` keeps from one returned data frame: only a non-empty one. */
  function KeepFrame(f: Frame): seq<Frame> {
    if NonEmptyFrame(f) then [f] else []
  }

  // ---------------------------------------------------------------------------
  // The extractors
  // ---------------------------------------------------------------------------

  /**
   * What the call `extractor(text_dict, num or "", str(pdf_file), month or "")`
   * leaves for the driver: the data frames it keeps from what the extractor
   * returned. An extractor that raises, returns `None` or returns something
   * other than a data frame leaves none (the driver only prints a message).
   * SA360, Google Ads and Google Workspace accept these arguments; the CM360
   * extractor takes the invoice number as its detail text and returns a
   * tuple of lists, none of them a data frame; the DV360 and LinkedIn
   * extractors run a regular expression over the page dictionary, which
   * raises `TypeError`.
   */
  function Run(e: Extractor, pages: Pages, num: string, filename: string, month: string): seq<Frame> {
    match e
    case ExtractSa360 => Sa360Frames(pages, num, filename, month)
    case ExtractGoogleAds => AdsFrames(pages, num, filename, month)
    case ExtractGoogleWorkspace => WorkspaceFrames(pages, num, filename, month)
    case ExtractCm360 => []
    case ExtractDv360 => []
    case ExtractLinkedin => []
  }

  /** `extract_sa360` returns its table as one data frame. */
  function Sa360Frames(pages: Pages, num: string, filename: string, month: string): seq<Frame> {
    KeepFrame(Sa360Frame(Sa360.Table(pages, num, filename, month)))
  }

  /** `extract_google_ads` raises, returns `None`, or returns its rows as one data frame. */
  function AdsFrames(pages: Pages, num: string, filename: string, month: string): seq<Frame> {
    match GoogleAds.Table(pages, GoogleAds.Meta(num, filename, month))
    case Err(_) => []
    case Ok(None) => []
    case Ok(Some(rows)) => KeepFrame(AdsFrame(rows))
  }

  /** `extract_google_workspace` returns its table as one data frame. */
  function WorkspaceFrames(pages: Pages, num: string, filename: string, month: string): seq<Frame> {
    KeepFrame(WorkspaceFrame(Workspace.Table(pages, num, filename, month)))
  }

  /** The tag `extractor_map` files each extractor under. */
  function Tag(e: Extractor): string {
    match e
    case ExtractCm360 => ProductName(CM360)
    case ExtractDv360 => ProductName(DV360)
    case ExtractGoogleAds => ProductName(GOOGLE_ADS)
    case ExtractGoogleWorkspace => ProductName(GOOGLE_WORKSPACE)
    case ExtractLinkedin => ProductName(LINKEDIN)
    case ExtractSa360 => ProductName(SA360)
  }

  /** A tag of the map gives back an extractor filed under that very tag. */
  lemma GetExtractorTag(name: string)
    ensures GetExtractor(name).Some? ==> Tag(GetExtractor(name).value) == name
  {
    GetExtractorKnownTags(name);
  }

  // ---------------------------------------------------------------------------
  // What the driver may rely on
  // ---------------------------------------------------------------------------

  /** At most one frame, non-empty and of the family `tag`. */
  predicate Yields(fs: seq<Frame>, tag: string) {
    fs == [] || (|fs| == 1 && NonEmptyFrame(fs[0]) && FrameKey(fs[0]) == tag)
  }

  /** The frames yielded for a product's tag are of that product's family: no two families share a tag. */
  lemma YieldsProduct(fs: seq<Frame>, p: Product, k: nat)
    requires Yields(fs, ProductName(p)) && k < |fs|
    ensures FrameProduct(fs[k]) == p
  {
    ProductNameInjective(FrameProduct(fs[k]), p);
  }

  /** A kept data frame is of its own family. */
  lemma KeepFrameYields(f: Frame)
    ensures Yields(KeepFrame(f), FrameKey(f))
  {
  }

  /** On every input, an extractor yields at most one frame, non-empty and of its own family. */
  lemma RunYields(e: Extractor, pages: Pages, num: string, filename: string, month: string)
    ensures Yields(Run(e, pages, num, filename, month), Tag(e))
  {
    match e
    case ExtractSa360 => Sa360FramesYield(pages, num, filename, month);
    case ExtractGoogleAds => AdsFramesYield(pages, num, filename, month);
    case ExtractGoogleWorkspace => WorkspaceFramesYield(pages, num, filename, month);
    case ExtractCm360 =>
    case ExtractDv360 =>
    case ExtractLinkedin =>
  }

  lemma Sa360FramesYield(pages: Pages, num: string, filename: string, month: string)
    ensures Yields(Sa360Frames(pages, num, filename, month), ProductName(SA360))
  {
    KeepFrameYields(Sa360Frame(Sa360.Table(pages, num, filename, month)));
  }

  lemma WorkspaceFramesYield(pages: Pages, num: string, filename: string, month: string)
    ensures Yields(WorkspaceFrames(pages, num, filename, month), ProductName(GOOGLE_WORKSPACE))
  {
    WorkspaceWhole(pages, num, filename, month);
    WorkspaceTableNonEmpty(pages, num, filename, month);
    YieldsOne(WorkspaceFrame(Workspace.Table(pages, num, filename, month)));
  }

  lemma YieldsOne(f: Frame)
    requires NonEmptyFrame(f)
    ensures Yields([f], FrameKey(f))
  {
  }

  lemma AdsFramesYield(pages: Pages, num: string, filename: string, month: string)
    ensures Yields(AdsFrames(pages, num, filename, month), ProductName(GOOGLE_ADS))
  {
    var t := GoogleAds.Table(pages, GoogleAds.Meta(num, filename, month));
    if t.Ok? && t.value.Some? {
      KeepFrameYields(AdsFrame(t.value.value));
    }
  }

  // ---------------------------------------------------------------------------
  // What each family's extractor yields
  // ---------------------------------------------------------------------------

  /** The SA360 extractor always yields its whole table, which is never empty. */
  lemma Sa360Yields(pages: Pages, num: string, filename: string, month: string)
    ensures Run(ExtractSa360, pages, num, filename, month) == [Sa360Frame(Sa360.Table(pages, num, filename, month))]
  {
    Sa360.TableShape(pages, num, filename, month);
    KeepSa360(Sa360.Table(pages, num, filename, month));
  }

  /** The Google Workspace extractor always yields its whole table, which starts with the summary row. */
  lemma WorkspaceYields(pages: Pages, num: string, filename: string, month: string)
    ensures Run(ExtractGoogleWorkspace, pages, num, filename, month) == [WorkspaceFrame(Workspace.Table(pages, num, filename, month))]
  {
    RunCases(ExtractGoogleWorkspace, pages, num, filename, month);
    WorkspaceWhole(pages, num, filename, month);
  }

  /** `Run` picks each family's outcome. */
  lemma RunCases(e: Extractor, pages: Pages, num: string, filename: string, month: string)
    ensures e == ExtractSa360 ==> Run(e, pages, num, filename, month) == Sa360Frames(pages, num, filename, month)
    ensures e == ExtractGoogleAds ==> Run(e, pages, num, filename, month) == AdsFrames(pages, num, filename, month)
    ensures e == ExtractGoogleWorkspace ==> Run(e, pages, num, filename, month) == WorkspaceFrames(pages, num, filename, month)
    ensures e in {ExtractCm360, ExtractDv360, ExtractLinkedin} ==> Run(e, pages, num, filename, month) == []
  {
    match e
    case ExtractSa360 =>
    case ExtractGoogleAds =>
    case ExtractGoogleWorkspace =>
    case ExtractCm360 =>
    case ExtractDv360 =>
    case ExtractLinkedin =>
  }

  lemma WorkspaceWhole(pages: Pages, num: string, filename: string, month: string)
    ensures WorkspaceFrames(pages, num, filename, month) == [WorkspaceFrame(Workspace.Table(pages, num, filename, month))]
  {
    WorkspaceTableNonEmpty(pages, num, filename, month);
    KeepWorkspace(Workspace.Table(pages, num, filename, month));
  }

  /** The Google Ads extractor yields its rows exactly when it returns rows; `None` and a raised error yield nothing. */
  lemma AdsYields(pages: Pages, num: string, filename: string, month: string)
    ensures var t := GoogleAds.Table(pages, GoogleAds.Meta(num, filename, month));
      Run(ExtractGoogleAds, pages, num, filename, month) == if t.Ok? && t.value.Some? then [AdsFrame(t.value.value)] else []
  {
    var meta := GoogleAds.Meta(num, filename, month);
    GoogleAds.TableSpec(pages, meta);
    var t := GoogleAds.Table(pages, meta);
    if t.Ok? && t.value.Some? {
      KeepAds(t.value.value);
    }
  }

  lemma KeepSa360(rows: seq<Sa360.Row>)
    requires rows != []
    ensures KeepFrame(Sa360Frame(rows)) == [Sa360Frame(rows)]
  {
  }

  lemma KeepAds(rows: seq<GoogleAds.AdsRow>)
    requires rows != []
    ensures KeepFrame(AdsFrame(rows)) == [AdsFrame(rows)]
  {
  }

  lemma KeepWorkspace(rows: seq<Workspace.WsRow>)
    requires rows != []
    ensures KeepFrame(WorkspaceFrame(rows)) == [WorkspaceFrame(rows)]
  {
  }

  lemma WorkspaceTableNonEmpty(pages: Pages, num: string, filename: string, month: string)
    ensures Workspace.Table(pages, num, filename, month) != []
  {
  }
}
