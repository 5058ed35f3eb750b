/**
 * The batch driver `SuperHeroFlex`: it holds the inputs it was built from,
 * its `extractor_map` and a dictionary from product tag to the data frames
 * its extractors returned, and `extract_all` fills that dictionary document
 * by document.
 *
 * Opening a PDF and listing a directory are parameters: `read` gives the
 * page texts of a path, or `None` when opening or reading it raises, and
 * `listing` is what the directory glob `*.pdf` returns.
 */
module Batch {
  import opened Options
  import opened Parser
  import opened Dispatch
  import opened Registry

  // ---------------------------------------------------------------------------
  // The results dictionary
  // ---------------------------------------------------------------------------

  /** `results_by_product`: product tag to the list of data frames appended under it. */
  type Results = map<string, seq<Frame>>

  /** What the loop body learns from one path that opened: the product tag and the frames to append. */
  datatype Entry<T> = Entry(key: string, frames: seq<T>)

  /** One path: `None` when opening or reading it raises, otherwise its tag and frames. */
  function Outcome(path: string, read: string -> Option<Pages>, m: map<string, ExtractorFn>): Option<Entry<Frame>> {
    match read(path)
    case None => None
    case Some(pages) => Some(Entry(DocumentKey(pages), DocumentFrames(m, pages, path)))
  }

  /** The outcomes of the paths, in order. */
  function Outcomes(paths: seq<string>, read: string -> Option<Pages>, m: map<string, ExtractorFn>): (r: seq<Option<Entry<Frame>>>)
    ensures |r| == |paths|
    ensures forall k | 0 <= k < |paths| :: r[k] == Outcome(paths[k], read, m)
    decreases |paths|
  {
    if paths == [] then []
    else Outcomes(paths[..|paths| - 1], read, m) + [Outcome(paths[|paths| - 1], read, m)]
  }

  /** `results_by_product[key]` of a `defaultdict(list)`, read without creating the key. */
  function Lookup<T>(results: map<string, seq<T>>, key: string): seq<T> {
    if key in results then results[key] else []
  }

  /** Appending each frame in turn: the key is created by the first append only; a failed path adds nothing. */
  function Store<T>(results: map<string, seq<T>>, o: Option<Entry<T>>): map<string, seq<T>> {
    if o.None? || o.value.frames == [] then results
    else results[o.value.key := Lookup(results, o.value.key) + o.value.frames]
  }

  /** The dictionary after the loop has handled the outcomes `docs`, from `results`. */
  function Accumulate<T>(results: map<string, seq<T>>, docs: seq<Option<Entry<T>>>): map<string, seq<T>>
    decreases |docs|
  {
    if docs == [] then results
    else Store(Accumulate(results, docs[..|docs| - 1]), docs[|docs| - 1])
  }

  /** The frames an outcome contributes under `key`. */
  function FramesOf<T>(o: Option<Entry<T>>, key: string): seq<T> {
    if o.Some? && o.value.key == key then o.value.frames else []
  }

  /** Reference definition: the frames of every outcome, in order, that belong under `key`. */
  function FramesUnder<T>(docs: seq<Option<Entry<T>>>, key: string): seq<T>
    decreases |docs|
  {
    if docs == [] then []
    else FramesUnder(docs[..|docs| - 1], key) + FramesOf(docs[|docs| - 1], key)
  }

  /**
   * The dictionary the loop builds is the reference one: under every key
   * the frames already there, then the frames of the documents of that
   * family in the order they were handled; and a key is present exactly
   * when it was or some document contributed to it.
   */
  lemma {:induction false} AccumulateSpec<T>(results: map<string, seq<T>>, docs: seq<Option<Entry<T>>>, key: string)
    ensures Lookup(Accumulate(results, docs), key) == Lookup(results, key) + FramesUnder(docs, key)
    ensures key in Accumulate(results, docs) <==> key in results || FramesUnder(docs, key) != []
    decreases |docs|
  {
    if docs != [] {
      var init, last := docs[..|docs| - 1], docs[|docs| - 1];
      var before := Accumulate(results, init);
      AccumulateSpec(results, init, key);
      StoreLookup(before, last, key);
      assert Accumulate(results, docs) == Store(before, last);
      assert FramesUnder(docs, key) == FramesUnder(init, key) + FramesOf(last, key);
      assert Lookup(results, key) + FramesUnder(init, key) + FramesOf(last, key)
        == Lookup(results, key) + (FramesUnder(init, key) + FramesOf(last, key));
    }
  }

  /** Storing one outcome appends its frames under its own key, and creates that key only when it brings frames. */
  lemma StoreLookup<T>(results: map<string, seq<T>>, o: Option<Entry<T>>, key: string)
    ensures Lookup(Store(results, o), key) == Lookup(results, key) + FramesOf(o, key)
    ensures key in Store(results, o) <==> key in results || FramesOf(o, key) != []
  {
  }

  /** A well-formed dictionary: every list is non-empty and holds non-empty frames of its key's family. */
  ghost predicate Stored(results: Results) {
    forall key | key in results ::
      results[key] != [] && forall j | 0 <= j < |results[key]| :: NonEmptyFrame(results[key][j]) && FrameKey(results[key][j]) == key
  }

  /** Only the SA360, Google Ads and Google Workspace families ever have a list. */
  lemma StoredKeys(results: Results, key: string)
    requires Stored(results) && key in results
    ensures key in {ProductName(SA360), ProductName(GOOGLE_ADS), ProductName(GOOGLE_WORKSPACE)}
  {
    assert FrameKey(results[key][0]) == key;
  }

  /** An outcome whose frames are of its own tag, at most one of them. */
  predicate EntryYields(o: Option<Entry<Frame>>) {
    o.Some? ==> Yields(o.value.frames, o.value.key)
  }

  /** With a well-behaved map, every path's outcome yields for its own tag. */
  lemma OutcomeYields(path: string, read: string -> Option<Pages>, m: map<string, ExtractorFn>)
    requires WellBehaved(m)
    ensures EntryYields(Outcome(path, read, m))
  {
    if read(path).Some? {
      DocumentFramesYield(m, read(path).value, path);
    }
  }

  /** Handling one more outcome keeps the dictionary well formed. */
  lemma StoreStored(results: Results, o: Option<Entry<Frame>>)
    requires Stored(results) && EntryYields(o)
    ensures Stored(Store(results, o))
  {
    if o.Some? && o.value.frames != [] {
      var key := o.value.key;
      var next := Store(results, o);
      var before := Lookup(results, key);
      assert next[key] == before + o.value.frames;
      forall j | 0 <= j < |next[key]| ensures NonEmptyFrame(next[key][j]) && FrameKey(next[key][j]) == key {
        if j < |before| { assert next[key][j] == before[j]; } else { assert next[key][j] == o.value.frames[0]; }
      }
    }
  }

  /** The loop keeps the dictionary well formed. */
  lemma {:induction false} AccumulateStored(results: Results, docs: seq<Option<Entry<Frame>>>)
    requires Stored(results) && forall k | 0 <= k < |docs| :: EntryYields(docs[k])
    ensures Stored(Accumulate(results, docs))
    decreases |docs|
  {
    if docs != [] {
      AccumulateStored(results, docs[..|docs| - 1]);
      StoreStored(Accumulate(results, docs[..|docs| - 1]), docs[|docs| - 1]);
    }
  }

  /** One more turn of the loop: the next outcome is stored, and the dictionary stays well formed. */
  lemma LoopStep(start: Results, docs: seq<Option<Entry<Frame>>>, i: nat, results: Results)
    requires i < |docs| && results == Accumulate(start, docs[..i])
    requires Stored(results) && EntryYields(docs[i])
    ensures Accumulate(start, docs[..i + 1]) == Store(results, docs[i])
    ensures Stored(Store(results, docs[i]))
  {
    assert docs[..i + 1][..i] == docs[..i];
    StoreStored(results, docs[i]);
  }

  /** Handling two runs of outcomes in turn is handling them once, one after the other. */
  lemma {:induction false} AccumulateAppend<T>(results: map<string, seq<T>>, a: seq<Option<Entry<T>>>, b: seq<Option<Entry<T>>>)
    ensures Accumulate(results, a + b) == Accumulate(Accumulate(results, a), b)
    decreases |b|
  {
    if b == [] {
      assert a + b == a;
    } else {
      assert (a + b)[..|a + b| - 1] == a + b[..|b| - 1];
      AccumulateAppend(results, a, b[..|b| - 1]);
    }
  }

  /** A path that cannot be read, or whose document adds no frame, leaves the dictionary as it was. */
  lemma SkippedOutcome<T>(results: map<string, seq<T>>, docs: seq<Option<Entry<T>>>, o: Option<Entry<T>>)
    requires o.None? || o.value.frames == []
    ensures Accumulate(results, docs + [o]) == Accumulate(results, docs)
  {
    assert (docs + [o])[..|docs|] == docs;
  }

  // ---------------------------------------------------------------------------
  // SuperHeroFlex
  // ---------------------------------------------------------------------------

  /** `pdf_dir or file_paths`: a non-empty directory name or at least one path. */
  predicate HasInput(pdfDir: Option<string>, filePaths: seq<string>) {
    (pdfDir.Some? && pdfDir.value != "") || filePaths != []
  }

  /** The paths `extract_all` walks: the given paths, or else the directory's listing. */
  function PdfList(filePaths: seq<string>, listing: seq<string>): (r: seq<string>)
    ensures filePaths != [] ==> r == filePaths
    ensures filePaths == [] ==> r == listing
  {
    if filePaths != [] then filePaths else listing
  }

  class SuperHeroFlex {
    var pdfDir: Option<string>
    var filePaths: seq<string>
    var resultsByProduct: Results
    var extractorMap: map<string, ExtractorFn>

    ghost predicate Valid()
      reads this
    {
      (pdfDir.Some? || filePaths != []) && Stored(resultsByProduct) && WellBehaved(extractorMap)
    }

    /** `SuperHeroFlex(pdf_dir, file_paths)` for inputs it accepts: an empty directory name is dropped. */
    constructor (pdfDir: Option<string>, filePaths: seq<string>)
      requires HasInput(pdfDir, filePaths)
      ensures Valid()
      ensures this.pdfDir == (if pdfDir.Some? && pdfDir.value != "" then pdfDir else None)
      ensures this.filePaths == filePaths && resultsByProduct == map[] && extractorMap == DefaultMap()
    {
      this.pdfDir := if pdfDir.Some? && pdfDir.value != "" then pdfDir else None;
      this.filePaths := filePaths;
      resultsByProduct := map[];
      extractorMap := DefaultMap();
      DefaultMapBehaves();
    }

    /** The constructor's `raise ValueError` when there is neither a directory nor a path. */
    static method Create(pdfDir: Option<string>, filePaths: seq<string>) returns (r: Result<SuperHeroFlex>)
      ensures r.Err? <==> !HasInput(pdfDir, filePaths)
      ensures r.Err? ==> r.error == "ValueError"
      ensures r.Ok? ==> fresh(r.value) && r.value.Valid() && r.value.resultsByProduct == map[]
      ensures r.Ok? ==> r.value.filePaths == filePaths && r.value.extractorMap == DefaultMap()
    {
      if !HasInput(pdfDir, filePaths) {
        return Err("ValueError");
      }
      var parser := new SuperHeroFlex(pdfDir, filePaths);
      r := Ok(parser);
    }

    /** `get_extractor`: `self.extractor_map.get(product_type)`. */
    function GetExtractor(tag: string): (r: Option<ExtractorFn>)
      reads this
      ensures r.Some? <==> tag in extractorMap
      ensures r.Some? ==> r.value == extractorMap[tag]
    {
      if tag in extractorMap then Some(extractorMap[tag]) else None
    }

    /** The body of the loop for a document that opened: the frames its extractor yields. */
    method ProcessDocument(pages: Pages, path: string) returns (frames: seq<Frame>)
      ensures frames == DocumentFrames(extractorMap, pages, path)
    {
      var product := IdentifyProduct(pages);
      var h := OverrideHeader(product, pages);
      var extractor := GetExtractor(ProductName(product));
      if extractor.None? {
        return [];
      }
      frames := extractor.value(pages, OrElse(h.invoiceNum, ""), path, OrElse(h.invoiceMonth, ""));
    }

    /** One turn of the loop up to the append: open the path, identify the product and run its extractor. */
    method OpenDocument(path: string, read: string -> Option<Pages>) returns (o: Option<Entry<Frame>>)
      ensures o == Outcome(path, read, extractorMap)
    {
      var text := read(path);
      if text.None? {
        return None;
      }
      var frames := ProcessDocument(text.value, path);
      o := Some(Entry(ProductName(IdentifyProduct(text.value)), frames));
    }

    /**
     * `extract_all`: every path in turn is read, identified and handed to its
     * extractor, and the frames it yields are appended under its product tag.
     */
    method ExtractAll(listing: seq<string>, read: string -> Option<Pages>)
      requires Valid()
      modifies this
      ensures Valid()
      ensures pdfDir == old(pdfDir) && filePaths == old(filePaths) && extractorMap == old(extractorMap)
      ensures resultsByProduct == Accumulate(old(resultsByProduct), Outcomes(PdfList(filePaths, listing), read, extractorMap))
    {
      var paths := PdfList(filePaths, listing);
      ghost var docs := Outcomes(paths, read, extractorMap);
      ghost var start := resultsByProduct;
      var i := 0;
      while i < |paths|
        invariant 0 <= i <= |paths|
        invariant pdfDir == old(pdfDir) && filePaths == old(filePaths) && extractorMap == old(extractorMap)
        invariant resultsByProduct == Accumulate(start, docs[..i])
        invariant Stored(resultsByProduct)
      {
        var o := OpenDocument(paths[i], read);
        OutcomeYields(paths[i], read, extractorMap);
        LoopStep(start, docs, i, resultsByProduct);
        if o.Some? && o.value.frames != [] {
          var key := o.value.key;
          resultsByProduct := resultsByProduct[key := Lookup(resultsByProduct, key) + o.value.frames];
        }
        i := i + 1;
      }
      assert docs[..i] == docs;
    }
  }
}
