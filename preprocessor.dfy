/**
 * The preprocessor (`PdfPreprocessor`): it takes a loaded document and, in a fixed order,
 * counts the font sizes, extracts the title, removes running headers and footers, tags headings,
 * captions and pseudo-tables, and finally moves the tables and the pseudo-table and caption
 * summaries into the metadata.
 *
 * Each stage is a function from the document before it to the document after it; the class
 * methods update the object's fields and are proved to compute exactly these functions, and
 * `Preprocess` composes them for the lemmas about the whole run.
 */
module Preprocessing {
  import opened Wrappers
  import opened Strings
  import opened DocModel
  import FontStats
  import Headers
  import Headings
  import Captions
  import PseudoTables
  import Summary

  // ------------------------------------------------------------------------------------------
  // _collect_paragraphs and _extract_title
  // ------------------------------------------------------------------------------------------

  /** The loop of `_collect_paragraphs`. */
  method CollectParagraphs(pages: seq<Page>) returns (paragraphs: seq<Paragraph>)
    ensures paragraphs == AllParagraphs(pages)
  {
    paragraphs := [];
    for i := 0 to |pages|
      invariant paragraphs == AllParagraphs(pages[..i])
    {
      assert pages[..i + 1][..i] == pages[..i];
      paragraphs := paragraphs + pages[i].paragraphs;
    }
    assert pages[..|pages|] == pages;
  }

  /** Paragraph `k` is the one `max(..., key=font_size)` returns: largest, and first among the largest. */
  predicate IsFirstLargest(ps: seq<Paragraph>, k: nat) {
    k < |ps| && (forall j :: 0 <= j < |ps| ==> ps[j].fontSize <= ps[k].fontSize)
    && forall j :: 0 <= j < k ==> ps[j].fontSize < ps[k].fontSize
  }

  function FirstLargest(ps: seq<Paragraph>): (k: nat)
    requires ps != []
    ensures IsFirstLargest(ps, k)
    decreases |ps|
  {
    if |ps| == 1 then 0
    else
      var k := FirstLargest(ps[..|ps| - 1]);
      if ps[|ps| - 1].fontSize > ps[k].fontSize then |ps| - 1 else k
  }

  /** There is only one first largest paragraph. */
  lemma {:induction false} FirstLargestUnique(ps: seq<Paragraph>, k: nat, l: nat)
    requires IsFirstLargest(ps, k) && IsFirstLargest(ps, l)
    ensures k == l
  {
    assert ps[l].fontSize <= ps[k].fontSize && ps[k].fontSize <= ps[l].fontSize;
  }

  /**
   * `_extract_title`: the stripped text of the first paragraph with the largest font size, unless
   * there are no paragraphs or that text is blank.
   */
  function TitleOf(snap: seq<Paragraph>): (t: Option<string>)
    ensures snap == [] ==> t.None?
  {
    if snap == [] then None
    else
      var candidate := Strip(snap[FirstLargest(snap)].text);
      if candidate != "" then Some(candidate) else None
  }

  /** A title exists exactly when the first largest paragraph's text is not blank, and it is that text. */
  lemma {:induction false} TitleOfSpec(snap: seq<Paragraph>)
    ensures TitleOf(snap).Some? <==> exists k: nat :: IsFirstLargest(snap, k) && Strip(snap[k].text) != ""
    ensures TitleOf(snap).Some? ==> exists k: nat :: IsFirstLargest(snap, k) && TitleOf(snap).value == Strip(snap[k].text)
  {
    if snap != [] {
      var k := FirstLargest(snap);
      forall l | IsFirstLargest(snap, l) ensures l == k {
        FirstLargestUnique(snap, k, l);
      }
    }
  }

  // ------------------------------------------------------------------------------------------
  // The stages as functions of the document
  // ------------------------------------------------------------------------------------------

  /** `_analyze_font_sizes` writes the statistics, the main size and the sorted candidate sizes. */
  function FontStage(doc: Document, st: FontStats.Stats): Document {
    var main := FontStats.MainSize(st);
    doc.(metadata := doc.metadata.(fontSizeStats := st, mainFontSize := main,
                                   candidateSizes := FontStats.StoredCandidates(st, main)))
  }

  /** `_extract_title` writes "document_title" only when it found a title. */
  function TitleStage(doc: Document, t: Option<string>): Document {
    if t.Some? then doc.(metadata := doc.metadata.(documentTitle := t)) else doc
  }

  /** `_detect_and_remove_headers_footers`: nothing happens (and `{}` is returned) without a main size. */
  function RemovalStage(doc: Document, main: Option<int>, sizes: set<int>, ratio: Headers.Ratio)
    : (r: (Document, Option<Headers.RemovedInfo>))
    ensures main.None? <==> r.1.None?
    ensures main.None? ==> r.0 == doc
    ensures main.Some? ==> r.0.metadata.recognizedHeaders.Some? && r.0.metadata.recognizedFooters.Some?
  {
    if main.None? then (doc, None)
    else
      var o := Headers.RemoveHeadersFooters(doc.pages, main.value, sizes, ratio);
      (doc.(pages := o.pages, metadata := doc.metadata.(recognizedHeaders := Some(o.headers),
                                                        recognizedFooters := Some(o.footers))),
       Some(o.info))
  }

  /** `_detect_headings` retags every page and writes the `headings` list. */
  function HeadingStage(doc: Document, snap: seq<Paragraph>, main: Option<int>): Document {
    var r := Headings.DetectHeadings(doc.pages, snap, main);
    doc.(pages := r.0, metadata := doc.metadata.(headings := Some(r.1)))
  }

  function CaptionStage(doc: Document): Document {
    doc.(pages := Captions.DetectCaptions(doc.pages))
  }

  function PseudoTableStage(doc: Document): Document {
    doc.(pages := PseudoTables.DetectPseudoTables(doc.pages))
  }

  /** Every stage before `process_and_save_metadata`, with the snapshot `snap` of the paragraphs. */
  function Staged(doc: Document, snap: seq<Paragraph>, ratio: Headers.Ratio): (Document, Option<Headers.RemovedInfo>) {
    var st := FontStats.CountSizes(snap);
    var main := FontStats.MainSize(st);
    var d1 := TitleStage(FontStage(doc, st), TitleOf(snap));
    var removal := RemovalStage(d1, main, FontStats.CandidateSizes(st, main), ratio);
    (PseudoTableStage(CaptionStage(HeadingStage(removal.0, snap, main))), removal.1)
  }

  /** `run_preprocessing` on a preprocessor whose snapshot is `snap`. */
  function PreprocessWith(doc: Document, snap: seq<Paragraph>, ratio: Headers.Ratio)
    : Result<(Document, Option<Headers.RemovedInfo>)>
  {
    var s := Staged(doc, snap, ratio);
    var saved := Summary.SaveMetadata(s.0);
    if saved.Err? then Err(saved.error) else Ok((saved.value, s.1))
  }

  /** `PdfPreprocessor(json_data).run_preprocessing()`, which takes the snapshot when it is built. */
  function Preprocess(doc: Document, ratio: Headers.Ratio): Result<(Document, Option<Headers.RemovedInfo>)> {
    PreprocessWith(doc, AllParagraphs(doc.pages), ratio)
  }

  // ------------------------------------------------------------------------------------------
  // The class
  // ------------------------------------------------------------------------------------------

  class PdfPreprocessor {
    /** `json_data` */
    var doc: Document
    /** `self.paragraphs`, taken once by the constructor. */
    const paragraphs: seq<Paragraph>
    /** `_similarity` (`SequenceMatcher(None, a, b).ratio()`). */
    const similarity: Headers.Ratio
    var title: Option<string>
    var fontStats: FontStats.Stats
    var mainFontSize: Option<int>
    var candidateSizes: set<int>

    constructor(jsonData: Document, similarity: Headers.Ratio)
      ensures doc == jsonData && paragraphs == AllParagraphs(jsonData.pages) && this.similarity == similarity
      ensures title.None? && fontStats == [] && mainFontSize.None? && candidateSizes == {}
    {
      doc := jsonData;
      var collected := CollectParagraphs(jsonData.pages);
      paragraphs := collected;
      this.similarity := similarity;
      title := None;
      fontStats := [];
      mainFontSize := None;
      candidateSizes := {};
    }

    method AnalyzeFontSizes()
      modifies this
      ensures fontStats == FontStats.CountSizes(paragraphs) && mainFontSize == FontStats.MainSize(fontStats)
      ensures candidateSizes == FontStats.CandidateSizes(fontStats, mainFontSize)
      ensures doc == FontStage(old(doc), fontStats)
      ensures title == old(title)
    {
      var st := FontStats.CountFontSizes(paragraphs);
      SetFontFields(st);
      WriteFontMetadata(st);
    }

    /** The three font fields `_analyze_font_sizes` sets from the statistics. */
    method SetFontFields(st: FontStats.Stats)
      modifies this
      ensures fontStats == st && mainFontSize == FontStats.MainSize(st)
      ensures candidateSizes == FontStats.CandidateSizes(st, mainFontSize)
      ensures doc == old(doc) && title == old(title)
    {
      var main := FontStats.MainSize(st);
      var sizes := FontStats.CandidateSizes(st, main);
      fontStats, mainFontSize, candidateSizes := st, main, sizes;
    }

    /** The three metadata keys `_analyze_font_sizes` writes. */
    method WriteFontMetadata(st: FontStats.Stats)
      modifies this
      ensures doc == FontStage(old(doc), st)
      ensures title == old(title) && fontStats == old(fontStats) && mainFontSize == old(mainFontSize)
      ensures candidateSizes == old(candidateSizes)
    {
      doc := FontStage(doc, st);
    }

    method ExtractTitle() returns (t: Option<string>)
      modifies this
      ensures t == TitleOf(paragraphs)
      ensures title == (if t.Some? then t else old(title)) && doc == TitleStage(old(doc), t)
      ensures fontStats == old(fontStats) && mainFontSize == old(mainFontSize)
      ensures candidateSizes == old(candidateSizes)
    {
      if paragraphs == [] {
        return None;
      }
      var maxPara := paragraphs[FirstLargest(paragraphs)];
      var titleCandidate := Strip(maxPara.text);
      if titleCandidate != "" {
        t := Some(titleCandidate);
        title := t;
        doc := TitleStage(doc, t);
      } else {
        t := None;
      }
    }

    method DetectAndRemoveHeadersFooters() returns (removedInfo: Option<Headers.RemovedInfo>)
      modifies this
      ensures (doc, removedInfo) == RemovalStage(old(doc), mainFontSize, candidateSizes, similarity)
      ensures title == old(title) && fontStats == old(fontStats) && mainFontSize == old(mainFontSize)
      ensures candidateSizes == old(candidateSizes)
    {
      if mainFontSize.None? {
        return None;
      }
      var o := Headers.DetectAndRemove(doc.pages, mainFontSize.value, candidateSizes, similarity);
      doc := doc.(pages := o.pages, metadata := doc.metadata.(recognizedHeaders := Some(o.headers),
                                                              recognizedFooters := Some(o.footers)));
      removedInfo := Some(o.info);
    }

    method DetectHeadings() returns (headings: seq<HeadingEntry>)
      modifies this
      ensures headings == Headings.DetectHeadings(old(doc).pages, paragraphs, mainFontSize).1
      ensures doc == HeadingStage(old(doc), paragraphs, mainFontSize)
      ensures title == old(title) && fontStats == old(fontStats) && mainFontSize == old(mainFontSize)
      ensures candidateSizes == old(candidateSizes)
    {
      var pages;
      pages, headings := Headings.DetectHeadingsIn(doc.pages, paragraphs, mainFontSize);
      doc := doc.(pages := pages, metadata := doc.metadata.(headings := Some(headings)));
    }

    method DetectTableAndImageCaptions()
      modifies this
      ensures doc == CaptionStage(old(doc))
      ensures title == old(title) && fontStats == old(fontStats) && mainFontSize == old(mainFontSize)
      ensures candidateSizes == old(candidateSizes)
    {
      var pages := Captions.DetectCaptionsIn(doc.pages);
      doc := doc.(pages := pages);
    }

    method DetectPseudoTables()
      modifies this
      ensures doc == PseudoTableStage(old(doc))
      ensures title == old(title) && fontStats == old(fontStats) && mainFontSize == old(mainFontSize)
      ensures candidateSizes == old(candidateSizes)
    {
      var pages := PseudoTables.DetectPseudoTablesIn(doc.pages);
      doc := doc.(pages := pages);
    }

    /** On KeyError (no top-level "tables") the document is left as it was. */
    method ProcessAndSaveMetadata() returns (r: Result<Metadata>)
      modifies this
      ensures var saved := Summary.SaveMetadata(old(doc));
              (saved.Err? ==> r == Err(saved.error) && doc == old(doc))
              && (saved.Ok? ==> doc == saved.value && r == Ok(doc.metadata))
      ensures title == old(title) && fontStats == old(fontStats) && mainFontSize == old(mainFontSize)
      ensures candidateSizes == old(candidateSizes)
    {
      if doc.tables.None? {
        return Err(KeyError("tables"));
      }
      var tables := doc.tables.value;
      var pseudoTables, captions := Summary.CollectSummary(doc.pages);
      doc := doc.(tables := None,
                  metadata := doc.metadata.(tables := Some(tables), pseudoTables := Some(pseudoTables),
                                            captions := Some(captions)));
      r := Ok(doc.metadata);
    }

    /** `run_preprocessing`; when the last stage fails, the changes of the earlier stages stay. */
    method RunPreprocessing() returns (r: Result<(Document, Option<Headers.RemovedInfo>)>)
      modifies this
      ensures r == PreprocessWith(old(doc), paragraphs, similarity)
      ensures r.Err? ==> doc == Staged(old(doc), paragraphs, similarity).0
      ensures r.Ok? ==> doc == r.value.0
    {
      AnalyzeFontSizes();
      var _ := ExtractTitle();
      var removedInfo := DetectAndRemoveHeadersFooters();
      var _ := DetectHeadings();
      DetectTableAndImageCaptions();
      DetectPseudoTables();
      var saved := ProcessAndSaveMetadata();
      if saved.Err? {
        return Err(saved.error);
      }
      r := Ok((doc, removedInfo));
    }
  }

  /** A fresh preprocessor runs `Preprocess`. */
  method RunOnce(jsonData: Document, similarity: Headers.Ratio)
    returns (r: Result<(Document, Option<Headers.RemovedInfo>)>)
    ensures r == Preprocess(jsonData, similarity)
  {
    var p := new PdfPreprocessor(jsonData, similarity);
    r := p.RunPreprocessing();
  }

  // ------------------------------------------------------------------------------------------
  // Properties of the whole run
  // ------------------------------------------------------------------------------------------

  /** Every stage keeps the top-level "tables" key, so the run fails exactly when it is missing. */
  lemma {:induction false} PreprocessFailsWithoutTables(doc: Document, ratio: Headers.Ratio)
    ensures Preprocess(doc, ratio).Err? <==> doc.tables.None?
    ensures Preprocess(doc, ratio).Err? ==> Preprocess(doc, ratio).error == KeyError("tables")
  {
    var snap := AllParagraphs(doc.pages);
    var s := Staged(doc, snap, ratio);
    assert s.0.tables == doc.tables;
  }

  /** Page `k` differs from page `k` of `before` at most in its paragraphs. */
  predicate SamePage(before: seq<Page>, after: seq<Page>, k: nat)
    requires k < |before| && k < |after|
  {
    after[k] == before[k].(paragraphs := after[k].paragraphs)
  }

  predicate SamePages(before: seq<Page>, after: seq<Page>) {
    |after| == |before| && forall k :: 0 <= k < |before| ==> SamePage(before, after, k)
  }

  lemma {:induction false} SamePagesTrans(a: seq<Page>, b: seq<Page>, c: seq<Page>)
    requires SamePages(a, b) && SamePages(b, c)
    ensures SamePages(a, c)
  {
    forall k | 0 <= k < |a| ensures SamePage(a, c, k) {
      assert SamePage(a, b, k) && SamePage(b, c, k);
    }
  }

  lemma {:induction false} SamePagesNumbers(a: seq<Page>, b: seq<Page>)
    requires SamePages(a, b)
    ensures Headings.Numbers(a) == Headings.Numbers(b)
  {
    forall n | n in Headings.Numbers(b) ensures n in Headings.Numbers(a) {
      var k :| 0 <= k < |b| && b[k].number == n;
      assert SamePage(a, b, k);
    }
    forall n | n in Headings.Numbers(a) ensures n in Headings.Numbers(b) {
      var k :| 0 <= k < |a| && a[k].number == n;
      assert SamePage(a, b, k);
    }
  }

  lemma {:induction false} RemovalKeepsPages(doc: Document, main: Option<int>, sizes: set<int>, ratio: Headers.Ratio)
    ensures SamePages(doc.pages, RemovalStage(doc, main, sizes, ratio).0.pages)
  {
    if main.Some? {
      forall k | 0 <= k < |doc.pages| ensures SamePage(doc.pages, RemovalStage(doc, main, sizes, ratio).0.pages, k) {
        Headers.PageAfterRemoval(doc.pages, main.value, sizes, ratio, k);
      }
    }
  }

  /** The tagging stages only change paragraphs. */
  lemma TaggingKeepsPages(doc: Document, snap: seq<Paragraph>, main: Option<int>)
    ensures SamePages(doc.pages, HeadingStage(doc, snap, main).pages)
    ensures SamePages(doc.pages, CaptionStage(doc).pages)
    ensures SamePages(doc.pages, PseudoTableStage(doc).pages)
  {
  }

  /**
   * The pages of a successful run are the input pages, in order, with only their paragraphs
   * changed; the tables move from the top level into the metadata.
   */
  lemma {:induction false} PreprocessKeepsPages(doc: Document, ratio: Headers.Ratio)
    requires Preprocess(doc, ratio).Ok?
    ensures SamePages(doc.pages, Preprocess(doc, ratio).value.0.pages)
    ensures Preprocess(doc, ratio).value.0.tables.None?
    ensures Preprocess(doc, ratio).value.0.metadata.tables == doc.tables
  {
    var snap := AllParagraphs(doc.pages);
    var st := FontStats.CountSizes(snap);
    var main := FontStats.MainSize(st);
    var d1 := TitleStage(FontStage(doc, st), TitleOf(snap));
    var d2 := RemovalStage(d1, main, FontStats.CandidateSizes(st, main), ratio).0;
    var d3 := HeadingStage(d2, snap, main);
    var d4 := CaptionStage(d3);
    var d5 := PseudoTableStage(d4);
    RemovalKeepsPages(d1, main, FontStats.CandidateSizes(st, main), ratio);
    TaggingKeepsPages(d2, snap, main);
    TaggingKeepsPages(d3, snap, main);
    TaggingKeepsPages(d4, snap, main);
    SamePagesTrans(d1.pages, d2.pages, d3.pages);
    SamePagesTrans(d1.pages, d3.pages, d4.pages);
    SamePagesTrans(d1.pages, d4.pages, d5.pages);
    assert Staged(doc, snap, ratio).0 == d5;
  }

  /**
   * The metadata of a successful run: the loader's fields are kept; the font statistics, the
   * main size and the sorted candidate sizes are those of the paragraphs; the title is written
   * only when one was found; headers and footers are handled (and recognized texts written)
   * exactly when there is a main size, and otherwise there are no headings. Every entry of
   * `headings` is a qualifying heading above the main size on one of the document's pages.
   */
  lemma {:induction false} PreprocessMetadata(doc: Document, ratio: Headers.Ratio)
    requires Preprocess(doc, ratio).Ok?
    ensures var snap := AllParagraphs(doc.pages);
            var st := FontStats.CountSizes(snap);
            var main := FontStats.MainSize(st);
            var out := Preprocess(doc, ratio).value;
            var m := out.0.metadata;
            m.language == doc.metadata.language
            && m.author == doc.metadata.author && m.subject == doc.metadata.subject
            && m.producer == doc.metadata.producer && m.createdAt == doc.metadata.createdAt
            && m.fileName == doc.metadata.fileName && m.filePath == doc.metadata.filePath
            && m.fileSize == doc.metadata.fileSize && m.fileHash == doc.metadata.fileHash
            && m.numPages == doc.metadata.numPages && m.allLinks == doc.metadata.allLinks
            && m.fontSizeStats == st && m.mainFontSize == main
            && m.candidateSizes == FontStats.StoredCandidates(st, main)
            && m.documentTitle == (if TitleOf(snap).Some? then TitleOf(snap) else doc.metadata.documentTitle)
            && (main.None? <==> out.1.None?)
            && (main.None? ==> m.headings == Some([]) && m.recognizedHeaders == doc.metadata.recognizedHeaders
                               && m.recognizedFooters == doc.metadata.recognizedFooters)
            && (main.Some? ==> m.recognizedHeaders.Some? && m.recognizedFooters.Some?)
            && m.headings.Some?
            && (main.Some? ==> forall h :: h in m.headings.value ==> Headings.EntryOk(h, main.value, Headings.Numbers(doc.pages)))
  {
    var snap := AllParagraphs(doc.pages);
    var st := FontStats.CountSizes(snap);
    var main := FontStats.MainSize(st);
    var sizes := FontStats.CandidateSizes(st, main);
    var d1 := TitleStage(FontStage(doc, st), TitleOf(snap));
    var d2 := RemovalStage(d1, main, sizes, ratio).0;
    var d3 := HeadingStage(d2, snap, main);
    assert Staged(doc, snap, ratio).0 == PseudoTableStage(CaptionStage(d3));
    if main.Some? {
      RemovalKeepsPages(d1, main, sizes, ratio);
      SamePagesNumbers(d1.pages, d2.pages);
      var hs := Headings.DetectHeadings(d2.pages, snap, main).1;
      forall h | h in hs ensures Headings.EntryOk(h, main.value, Headings.Numbers(doc.pages)) {
        Headings.HeadingEntriesOk(d2.pages, main.value, Headings.HeadingSizes(snap, main.value), h);
      }
    }
  }

  /**
   * With the top-level tables present the run succeeds, and "document_title" is the extracted
   * title when there is one and otherwise what it was before.
   */
  lemma {:induction false} PreprocessTitle(doc: Document, ratio: Headers.Ratio)
    requires doc.tables.Some?
    ensures Preprocess(doc, ratio).Ok?
    ensures var t := TitleOf(AllParagraphs(doc.pages));
            Preprocess(doc, ratio).value.0.metadata.documentTitle == if t.Some? then t else doc.metadata.documentTitle
  {
    PreprocessFailsWithoutTables(doc, ratio);
    PreprocessMetadata(doc, ratio);
  }

  /**
   * The summaries of a successful run: the contents of the pseudo-table records, one after the
   * other, are exactly the texts of the pseudo-table paragraphs of the final pages in reading
   * order; each record's text is its contents joined by spaces, with duplicate-free pages and
   * levels; and there is one caption entry per caption paragraph, in order.
   */
  lemma {:induction false} PreprocessSummaries(doc: Document, ratio: Headers.Ratio)
    requires Preprocess(doc, ratio).Ok?
    ensures var out := Preprocess(doc, ratio).value.0;
            var items := Summary.Items(out.pages);
            out.metadata.pseudoTables.Some? && out.metadata.captions.Some?
            && Summary.AllContents(out.metadata.pseudoTables.value)
               == Summary.TextsOf(Filter(items, Summary.PseudoItemTest()))
            && (forall k :: 0 <= k < |out.metadata.pseudoTables.value| ==> Summary.Finished(out.metadata.pseudoTables.value[k]))
            && out.metadata.captions.value == Summary.CaptionsOf(Filter(items, Summary.CaptionItemTest()))
  {
    var s := Staged(doc, AllParagraphs(doc.pages), ratio).0;
    assert Preprocess(doc, ratio).value.0.pages == s.pages;
    Summary.SummaryOfStream(Summary.Items(s.pages));
  }
}
