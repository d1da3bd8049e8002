/**
 * The last preprocessing step: it moves the extracted tables into the metadata, merges runs of
 * consecutive pseudo-table paragraphs into pseudo-table records and lists every caption.
 *
 * The paragraphs are read as one stream over the pages in order, so a run of pseudo-table
 * paragraphs continues across a page break.
 */
module Summary {
  import opened Wrappers
  import opened Strings
  import opened DocModel

  /** A paragraph of the stream, with the number of its page. */
  datatype Item = Item(page: int, para: Paragraph)

  function PageItems(page: Page): (r: seq<Item>)
    ensures |r| == |page.paragraphs|
  {
    seq(|page.paragraphs|, j requires 0 <= j < |page.paragraphs| => Item(page.number, page.paragraphs[j]))
  }

  /** The stream over all pages, in order. */
  function Items(pages: seq<Page>): seq<Item>
    decreases |pages|
  {
    if pages == [] then [] else Items(pages[..|pages| - 1]) + PageItems(pages[|pages| - 1])
  }

  /** The loop state: the pseudo-table being built and the records and captions so far. */
  datatype Acc = Acc(current: Option<PseudoTableEntry>, tables: seq<PseudoTableEntry>, captions: seq<CaptionEntry>)

  /** A run has ended: its pages and heading levels lose their duplicates (`list(set(...))`). */
  function Finish(e: PseudoTableEntry): PseudoTableEntry {
    e.(pages := Dedup(e.pages), headingLevels := Dedup(e.headingLevels))
  }

  function Begin(it: Item): PseudoTableEntry {
    PseudoTableEntry(it.para.text, [it.page], [it.para.headingLevel], [it.para.text])
  }

  function Extend(e: PseudoTableEntry, it: Item): PseudoTableEntry {
    e.(text := e.text + " " + it.para.text,
       pages := e.pages + [it.page],
       headingLevels := e.headingLevels + [it.para.headingLevel],
       contents := e.contents + [it.para.text])
  }

  function CaptionOf(it: Item): CaptionEntry {
    CaptionEntry(it.para.text, it.page, [it.para.headingLevel])
  }

  /** One paragraph of the stream. */
  function Step(acc: Acc, it: Item): Acc {
    var acc1 :=
      if it.para.isType == PseudoTable then
        if acc.current.None? then acc.(current := Some(Begin(it)))
        else acc.(current := Some(Extend(acc.current.value, it)))
      else if acc.current.Some? then acc.(current := None, tables := acc.tables + [Finish(acc.current.value)])
      else acc;
    if it.para.isType == Caption then acc1.(captions := acc1.captions + [CaptionOf(it)]) else acc1
  }

  function Fold(items: seq<Item>): Acc
    decreases |items|
  {
    if items == [] then Acc(None, [], []) else Step(Fold(items[..|items| - 1]), items[|items| - 1])
  }

  /** The records after the final flush of a run that reaches the end of the document. */
  function Flush(acc: Acc): seq<PseudoTableEntry> {
    if acc.current.Some? then acc.tables + [Finish(acc.current.value)] else acc.tables
  }

  function CaptionItemTest(): Item -> bool {
    (it: Item) => it.para.isType == Caption
  }

  function PseudoItemTest(): Item -> bool {
    (it: Item) => it.para.isType == PseudoTable
  }

  /** The reference list of captions: one entry per caption paragraph. */
  function CaptionsOf(items: seq<Item>): (r: seq<CaptionEntry>)
    ensures |r| == |items|
  {
    seq(|items|, k requires 0 <= k < |items| => CaptionOf(items[k]))
  }

  function TextsOf(items: seq<Item>): (r: seq<string>)
    ensures |r| == |items|
  {
    seq(|items|, k requires 0 <= k < |items| => items[k].para.text)
  }

  /** The contents of the records, one after the other. */
  function AllContents(ts: seq<PseudoTableEntry>): seq<string>
    decreases |ts|
  {
    if ts == [] then [] else AllContents(ts[..|ts| - 1]) + ts[|ts| - 1].contents
  }

  lemma {:induction false} AllContentsSnoc(ts: seq<PseudoTableEntry>, t: PseudoTableEntry)
    ensures AllContents(ts + [t]) == AllContents(ts) + t.contents
  {
    assert (ts + [t])[..|ts|] == ts;
  }

  /** A record as it is built: text = the contents joined by spaces, one page and level per line. */
  predicate Building(e: PseudoTableEntry) {
    e.contents != [] && e.text == Join(" ", e.contents)
    && |e.pages| == |e.contents| && |e.headingLevels| == |e.contents|
  }

  /** A finished record: text = the contents joined by spaces, pages and levels without duplicates. */
  predicate Finished(e: PseudoTableEntry) {
    e.contents != [] && e.text == Join(" ", e.contents)
    && (forall i, j :: 0 <= i < j < |e.pages| ==> e.pages[i] != e.pages[j])
    && (forall i, j :: 0 <= i < j < |e.headingLevels| ==> e.headingLevels[i] != e.headingLevels[j])
    && |e.pages| <= |e.contents| && |e.headingLevels| <= |e.contents|
  }

  predicate AccOk(acc: Acc, items: seq<Item>) {
    (acc.current.Some? ==> Building(acc.current.value))
    && (forall k :: 0 <= k < |acc.tables| ==> Finished(acc.tables[k]))
    && AllContents(acc.tables) + (if acc.current.Some? then acc.current.value.contents else [])
       == TextsOf(Filter(items, PseudoItemTest()))
    && acc.captions == CaptionsOf(Filter(items, CaptionItemTest()))
  }

  lemma FinishOk(e: PseudoTableEntry)
    requires Building(e)
    ensures Finished(Finish(e)) && Finish(e).contents == e.contents
  {
  }

  lemma {:induction false} BuildingExtend(e: PseudoTableEntry, it: Item)
    requires Building(e)
    ensures Building(Extend(e, it))
  {
    JoinSnoc(" ", e.contents, it.para.text);
  }

  lemma TextsSnoc(items: seq<Item>, it: Item)
    ensures TextsOf(items + [it]) == TextsOf(items) + [it.para.text]
    ensures CaptionsOf(items + [it]) == CaptionsOf(items) + [CaptionOf(it)]
  {
  }

  /** The effect of one step on the record contents, the records and the captions. */
  lemma {:induction false} StepOk(acc: Acc, items: seq<Item>, it: Item)
    requires AccOk(acc, items)
    ensures AccOk(Step(acc, it), items + [it])
  {
    var all := items + [it];
    assert all[..|all| - 1] == items;
    TextsSnoc(Filter(items, PseudoItemTest()), it);
    TextsSnoc(Filter(items, CaptionItemTest()), it);
    if it.para.isType == PseudoTable {
      if acc.current.Some? {
        BuildingExtend(acc.current.value, it);
      } else {
        assert Join(" ", [it.para.text]) == it.para.text;
      }
    } else if acc.current.Some? {
      FinishOk(acc.current.value);
      AllContentsSnoc(acc.tables, Finish(acc.current.value));
    }
  }

  lemma {:induction false} FoldOk(items: seq<Item>)
    ensures AccOk(Fold(items), items)
    decreases |items|
  {
    if items != [] {
      var init := items[..|items| - 1];
      FoldOk(init);
      StepOk(Fold(init), init, items[|items| - 1]);
      assert init + [items[|items| - 1]] == items;
    }
  }

  /**
   * The records and captions of a stream: the contents of all records, in order, are exactly the
   * texts of the pseudo-table paragraphs; every record's text is its contents joined by single
   * spaces, and its pages and levels have no duplicates; the captions are one entry per caption
   * paragraph, in order, with its text, page and level.
   */
  lemma {:induction false} SummaryOfStream(items: seq<Item>)
    ensures var acc := Fold(items);
            var ts := Flush(acc);
            AllContents(ts) == TextsOf(Filter(items, PseudoItemTest()))
            && (forall k :: 0 <= k < |ts| ==> Finished(ts[k]))
            && acc.captions == CaptionsOf(Filter(items, CaptionItemTest()))
  {
    var acc := Fold(items);
    FoldOk(items);
    if acc.current.Some? {
      FinishOk(acc.current.value);
      AllContentsSnoc(acc.tables, Finish(acc.current.value));
    }
  }

  /** `process_and_save_metadata`: fails with KeyError("tables") when the top-level key is gone. */
  function SaveMetadata(doc: Document): (r: Result<Document>)
    ensures r.Err? <==> doc.tables.None?
    ensures r.Err? ==> r.error == KeyError("tables")
    ensures r.Ok? ==> r.value.pages == doc.pages && r.value.tables.None?
                           && r.value.metadata.tables == doc.tables
  {
    if doc.tables.None? then Err(KeyError("tables"))
    else
      var acc := Fold(Items(doc.pages));
      Ok(doc.(tables := None,
                   metadata := doc.metadata.(tables := doc.tables,
                                             pseudoTables := Some(Flush(acc)),
                                             captions := Some(acc.captions))))
  }

  lemma {:induction false} ItemsSnoc(pages: seq<Page>, i: nat)
    requires i < |pages|
    ensures Items(pages[..i + 1]) == Items(pages[..i]) + PageItems(pages[i])
  {
    assert pages[..i + 1][..i] == pages[..i];
  }

  lemma {:induction false} FoldSnoc(items: seq<Item>, it: Item)
    ensures Fold(items + [it]) == Step(Fold(items), it)
  {
    assert (items + [it])[..|items|] == items;
  }

  /** The nested page and paragraph loops, returning the records and the captions. */
  method CollectSummary(pages: seq<Page>) returns (pseudoTables: seq<PseudoTableEntry>, captions: seq<CaptionEntry>)
    ensures pseudoTables == Flush(Fold(Items(pages))) && captions == Fold(Items(pages)).captions
  {
    var current: Option<PseudoTableEntry> := None;
    var tables: seq<PseudoTableEntry> := [];
    captions := [];
    for i := 0 to |pages|
      invariant Acc(current, tables, captions) == Fold(Items(pages[..i]))
    {
      ItemsSnoc(pages, i);
      var page := pages[i];
      var items := PageItems(page);
      assert Items(pages[..i]) + items[..0] == Items(pages[..i]);
      for j := 0 to |page.paragraphs|
        invariant Acc(current, tables, captions) == Fold(Items(pages[..i]) + items[..j])
      {
        var paragraph := page.paragraphs[j];
        assert items[j] == Item(page.number, paragraph);
        assert items[..j + 1] == items[..j] + [items[j]];
        assert Items(pages[..i]) + items[..j + 1] == (Items(pages[..i]) + items[..j]) + [items[j]];
        FoldSnoc(Items(pages[..i]) + items[..j], items[j]);
        if paragraph.isType == PseudoTable {
          if current.None? {
            current := Some(PseudoTableEntry(paragraph.text, [page.number], [paragraph.headingLevel], [paragraph.text]));
          } else {
            var t := current.value;
            current := Some(t.(text := t.text + " " + paragraph.text,
                               pages := t.pages + [page.number],
                               headingLevels := t.headingLevels + [paragraph.headingLevel],
                               contents := t.contents + [paragraph.text]));
          }
        } else if current.Some? {
          var t := current.value;
          tables := tables + [t.(headingLevels := Dedup(t.headingLevels), pages := Dedup(t.pages))];
          current := None;
        }
        if paragraph.isType == Caption {
          captions := captions + [CaptionEntry(paragraph.text, page.number, [paragraph.headingLevel])];
        }
      }
      assert items[..|page.paragraphs|] == items;
    }
    assert pages[..|pages|] == pages;
    if current.Some? {
      var t := current.value;
      tables := tables + [t.(headingLevels := Dedup(t.headingLevels), pages := Dedup(t.pages))];
    }
    pseudoTables := tables;
  }
}
