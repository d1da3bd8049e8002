/**
 * The embedder: it classifies every chunk by its id, formats it with a fixed template that
 * names the document title, page and level, and attaches the embedding of the formatted text.
 * The metadata chunk passes through without an embedding and sets the title for the chunks
 * that follow it.
 *
 * The embedding service and Python's `str` of non-string chunk texts are parameters.
 */
module Embedding {
  import opened Wrappers
  import opened Strings
  import opened DocModel
  import opened Chunking

  /** The calls into code outside the model. */
  datatype Api = Api(
    embed: string -> seq<real>,          // `create_embeddings`: the embedding service
    show: Value -> string,               // `str(x)` of a text that is not a string
    showRow: seq<string> -> string,      // `str(row)` of a table row
    keysOf: Metadata -> seq<string>)     // iterating a metadata dict gives its keys

  /** The kinds `classify_chunk` returns. */
  datatype Kind = MetadataKind | HeadingKind | PseudoTableKind | TableKind | CaptionKind | ParagraphKind | UnknownKind

  /** `classify_chunk`: an exact id test, then substring tests on the whole id, then `is_type`. */
  function ClassifyChunk(ch: Chunk): Kind {
    if ch.id == "metadata" then MetadataKind
    else if Contains(ch.id, "heading") then HeadingKind
    else if Contains(ch.id, "pseudo_table") then PseudoTableKind
    else if Contains(ch.id, "table") then TableKind
    else if Contains(ch.id, "captions") then CaptionKind
    else if ch.isType.GetOr("") == "normal" then ParagraphKind
    else UnknownKind
  }

  /** A word that occurs in the title occurs in every id that starts with the title. */
  lemma {:induction false} ContainsInPrefix(title: string, rest: string, word: string)
    requires Contains(title, word)
    ensures Contains(title + rest, word)
  {
    var i :| OccursAt(title, word, i);
    assert (title + rest)[i..i + |word|] == title[i..i + |word|];
    assert OccursAt(title + rest, word, i);
  }

  lemma {:induction false} ContainsAt(s: string, word: string, i: nat)
    requires i + |word| <= |s| && s[i..i + |word|] == word
    ensures Contains(s, word)
  {
    assert OccursAt(s, word, i);
  }

  /** Every chunk of a heading is classified as a heading, whatever the title says. */
  lemma {:induction false} HeadingChunksAreHeadings(title: string, c: Codec, lim: Limits, idx: nat, h: HeadingEntry, ch: Chunk)
    requires HeadingChunks(title, c, lim, idx, h).Ok? && ch in HeadingChunks(title, c, lim, idx, h).value
    ensures ClassifyChunk(ch) == HeadingKind
  {
    var pieces := SplitText(h.text, c, lim).value;
    var i :| 0 <= i < |pieces| && ch == MapSeq(pieces, HeadingPiece(title, idx, h))[i];
    assert ch.id == HeadingId(title, idx, h);
    HeadingIdContains(title, idx, h);
  }

  lemma {:induction false} HeadingIdContains(title: string, idx: nat, h: HeadingEntry)
    ensures Contains(HeadingId(title, idx, h), "heading") && HeadingId(title, idx, h) != "metadata"
  {
    var rest := NatToString(idx) + "_level_" + IntToString(h.level) + "_page_" + IntToString(h.page);
    var id := title + "_heading_" + rest;
    assert HeadingId(title, idx, h) == id;
    assert id[|title| + 1..|title| + 8] == "heading";
    ContainsAt(id, "heading", |title| + 1);
    assert |id| > |"metadata"|;
  }

  /**
   * The substring tests see the title too: with "heading" in the title every chunk the chunker
   * emits (except an id that is exactly "metadata") is classified as a heading.
   */
  lemma {:induction false} TitleWithHeading(title: string, rest: string, ch: Chunk)
    requires Contains(title, "heading") && ch.id == title + rest && ch.id != "metadata"
    ensures ClassifyChunk(ch) == HeadingKind
  {
    ContainsInPrefix(title, rest, "heading");
  }

  /**
   * The "pseudo_table" test must come before the "table" test: every pseudo-table id also
   * contains "table", and it is still classified as a pseudo-table unless it contains "heading".
   */
  lemma {:induction false} PseudoTableBeforeTable(ch: Chunk)
    requires Contains(ch.id, "pseudo_table") && !Contains(ch.id, "heading")
    ensures Contains(ch.id, "table")
    ensures ClassifyChunk(ch) == PseudoTableKind
  {
    var i :| OccursAt(ch.id, "pseudo_table", i);
    assert ch.id[i + 7..i + 12] == "pseudo_table"[7..] == "table";
    ContainsAt(ch.id, "table", i + 7);
    assert |ch.id| >= 12 > |"metadata"|;
  }

  /**
   * An id without any of the four words decides nothing: such a chunk is a paragraph exactly
   * when its `is_type` is "normal", so a heading, caption or pseudo-table paragraph is unknown.
   */
  lemma ParagraphsByType(ch: Chunk)
    requires ch.id != "metadata"
    requires !Contains(ch.id, "heading") && !Contains(ch.id, "pseudo_table")
    requires !Contains(ch.id, "table") && !Contains(ch.id, "captions")
    ensures ClassifyChunk(ch) == ParagraphKind <==> ch.isType == Some("normal")
    ensures ClassifyChunk(ch) != ParagraphKind ==> ClassifyChunk(ch) == UnknownKind
  {
  }

  /** `str(text)` inside an f-string. */
  function Display(v: Value, api: Api): string {
    if v.Str? then v.s else api.show(v)
  }

  /** `str(heading_level)`, with 0 when the chunk has none. */
  function LevelText(l: Option<LevelField>): string {
    if l.None? then "0"
    else match l.value
      case Level(n) => IntToString(n)
      case Levels(ns) => IntListRepr(ns)
  }

  /**
   * The f-string shape the heading, caption and paragraph templates share:
   * `f"{document_title} - {kind} ({fields}): {text}"`. The title comes first and the chunk text
   * last, with only the fixed label between them.
   */
  function Template(title: string, kind: string, fields: string, text: string): (r: string)
    ensures var mid := " - " + kind + " (" + fields + "): ";
            |r| == |title| + |mid| + |text|
            && r[..|title|] == title && r[|title|..|title| + |mid|] == mid && r[|r| - |text|..] == text
  {
    var mid := " - " + kind + " (" + fields + "): ";
    var r := title + mid + text;
    assert r[..|title|] == title && r[|title|..|title| + |mid|] == mid;
    r
  }

  /** `_process_heading`: note the ",)" the template has after the level. */
  function HeadingText(title: string, text: string, page: string, level: string): string {
    Template(title, "Heading", "Page " + page + ", Heading Level " + level + ",", text)
  }

  /** `_process_caption` */
  function CaptionText(title: string, text: string, page: string, level: string): string {
    Template(title, "Caption", "Page " + page + ", Heading Level " + level, text)
  }

  /** `_process_paragraph` */
  function ParagraphText(title: string, text: string, page: string, level: string): string {
    Template(title, "Paragraph", "Page " + page + ", Heading Level " + level, text)
  }

  /** What iterating a chunk text yields, each element as `str` gives it. */
  function ElementsOf(v: Value, api: Api): seq<string> {
    match v
    case Str(s) => Chars(s)
    case Lines(ls) => ls
    case Rows(rs) => MapSeq(rs, api.showRow)
    case Meta(m) => api.keysOf(m)
  }

  /** The rows `_process_table` iterates: a string row's "cells" are its characters. */
  function TableRows(v: Value, api: Api): seq<seq<string>> {
    if v.Rows? then v.rows else MapSeq(ElementsOf(v, api), Chars)
  }

  function RowLine(): seq<string> -> string {
    (row: seq<string>) => "Row: " + Join(" | ", row) + "; "
  }

  function TableHeader(title: string, page: int): string {
    title + " - Table (Page " + IntToString(page) + "): "
  }

  /** The table text before stripping: the header, then one "Row: ...; " per row. */
  function TableRaw(title: string, rows: seq<seq<string>>, page: int): string {
    TableHeader(title, page) + Flatten(MapSeq(rows, RowLine()))
  }

  function LineEntry(lines: seq<string>, i: nat): string
    requires i < |lines|
  {
    "Line " + NatToString(i + 1) + ": " + lines[i] + "; "
  }

  /** The numbered lines, "Line 1: ...; " first. */
  function NumberedLines(lines: seq<string>): (r: seq<string>)
    ensures |r| == |lines| && forall i :: 0 <= i < |lines| ==> r[i] == LineEntry(lines, i)
  {
    seq(|lines|, i requires 0 <= i < |lines| => LineEntry(lines, i))
  }

  function PseudoHeader(title: string, pages: seq<int>, levels: seq<int>): string {
    title + " - Pseudotable (Pages " + Join(", ", IntsToStrings(pages))
      + ", Heading Levels " + Join(", ", IntsToStrings(levels)) + "): "
  }

  function PseudoRaw(title: string, lines: seq<string>, pages: seq<int>, levels: seq<int>): string {
    PseudoHeader(title, pages, levels) + Flatten(NumberedLines(lines))
  }

  lemma {:induction false} StripLastSpace(s: string)
    requires |s| >= 2 && s[|s| - 1] == ' ' && !IsSpace(s[|s| - 2]) && !IsSpace(s[0])
    ensures Strip(s) == s[..|s| - 1]
  {
    assert StripLeft(s) == s;
    var t := s[..|s| - 1];
    assert StripRight(t) == t;
  }

  lemma {:induction false} FlattenLastOf(parts: seq<string>, last: string)
    requires parts != [] && |parts[|parts| - 1]| >= 2
    ensures var f := Flatten(parts);
            |f| >= 2 && f[|f| - 2..] == parts[|parts| - 1][|parts[|parts| - 1]| - 2..]
  {
    FlattenSnoc(parts[..|parts| - 1], parts[|parts| - 1]);
    assert parts[..|parts| - 1] + [parts[|parts| - 1]] == parts;
  }

  /** A header that starts visibly and ends in ": ", then lines that end in "; ", loses only its final space. */
  lemma {:induction false} StripHeaderBody(h: string, f: string)
    requires |h| >= 2 && !IsSpace(h[0]) && h[|h| - 2..] == ": "
    requires f != [] ==> |f| >= 2 && f[|f| - 2..] == "; "
    ensures var raw := h + f;
            Strip(raw) == raw[..|raw| - 1] && raw[|raw| - 2] == (if f == [] then ':' else ';')
  {
    var raw := h + f;
    if f == [] {
      assert raw == h;
    } else {
      assert raw[|raw| - 2..] == f[|f| - 2..];
    }
    StripLastSpace(raw);
  }

  lemma {:induction false} TableHeaderShape(title: string, page: int)
    requires title != []
    ensures var h := TableHeader(title, page);
            |h| >= 2 && h[0] == title[0] && h[|h| - 2..] == ": "
  {
    assert TableHeader(title, page) == title + (" - Table (Page " + IntToString(page) + "): ");
  }

  lemma {:induction false} PseudoHeaderShape(title: string, pages: seq<int>, levels: seq<int>)
    requires title != []
    ensures var h := PseudoHeader(title, pages, levels);
            |h| >= 2 && h[0] == title[0] && h[|h| - 2..] == ": "
  {
    var l := title + " - Pseudotable (Pages " + Join(", ", IntsToStrings(pages))
      + ", Heading Levels " + Join(", ", IntsToStrings(levels));
    assert l[0] == title[0];
    assert PseudoHeader(title, pages, levels) == l + "): ";
  }

  lemma {:induction false} RowLinesEnd(rows: seq<seq<string>>)
    requires rows != []
    ensures var f := Flatten(MapSeq(rows, RowLine()));
            |f| >= 2 && f[|f| - 2..] == "; "
  {
    var parts := MapSeq(rows, RowLine());
    assert parts[|parts| - 1] == ("Row: " + Join(" | ", rows[|rows| - 1])) + "; ";
    FlattenLastOf(parts, parts[|parts| - 1]);
  }

  lemma {:induction false} NumberedLinesEnd(lines: seq<string>)
    requires lines != []
    ensures var f := Flatten(NumberedLines(lines));
            |f| >= 2 && f[|f| - 2..] == "; "
  {
    var parts := NumberedLines(lines);
    assert parts[|parts| - 1] == ("Line " + NatToString(|lines|) + ": " + lines[|lines| - 1]) + "; ";
    FlattenLastOf(parts, parts[|parts| - 1]);
  }

  /** A title that starts with a visible character makes stripping remove exactly the final space. */
  lemma {:induction false} TableTextStrip(title: string, rows: seq<seq<string>>, page: int)
    requires title != [] && !IsSpace(title[0])
    ensures var raw := TableRaw(title, rows, page);
            Strip(raw) == raw[..|raw| - 1] && raw[|raw| - 2] == (if rows == [] then ':' else ';')
  {
    TableHeaderShape(title, page);
    if rows != [] {
      RowLinesEnd(rows);
    }
    StripHeaderBody(TableHeader(title, page), Flatten(MapSeq(rows, RowLine())));
  }

  /** The same for the pseudo-table text, whose last line ends in "; ". */
  lemma {:induction false} PseudoTextStrip(title: string, lines: seq<string>, pages: seq<int>, levels: seq<int>)
    requires title != [] && !IsSpace(title[0])
    ensures var raw := PseudoRaw(title, lines, pages, levels);
            Strip(raw) == raw[..|raw| - 1] && raw[|raw| - 2] == (if lines == [] then ':' else ';')
  {
    var h, f := PseudoHeader(title, pages, levels), Flatten(NumberedLines(lines));
    assert PseudoRaw(title, lines, pages, levels) == h + f;
    PseudoHeaderShape(title, pages, levels);
    if lines != [] {
      NumberedLinesEnd(lines);
    }
    StripHeaderBody(h, f);
  }

  lemma {:induction false} TableStep(title: string, rows: seq<seq<string>>, page: int, i: nat)
    requires i < |rows|
    ensures TableHeader(title, page) + Flatten(MapSeq(rows[..i + 1], RowLine()))
         == TableHeader(title, page) + Flatten(MapSeq(rows[..i], RowLine())) + ("Row: " + Join(" | ", rows[i]) + "; ")
  {
    MapSnoc(rows, i, RowLine());
    FlattenSnoc(MapSeq(rows[..i], RowLine()), RowLine()(rows[i]));
  }

  lemma {:induction false} PseudoStep(title: string, lines: seq<string>, pages: seq<int>, levels: seq<int>, i: nat)
    requires i < |lines|
    ensures PseudoHeader(title, pages, levels) + Flatten(NumberedLines(lines[..i + 1]))
         == PseudoHeader(title, pages, levels) + Flatten(NumberedLines(lines[..i]))
            + ("Line " + NatToString(i + 1) + ": " + lines[i] + "; ")
  {
    assert NumberedLines(lines[..i + 1]) == NumberedLines(lines[..i]) + [LineEntry(lines, i)];
    FlattenSnoc(NumberedLines(lines[..i]), LineEntry(lines, i));
  }

  /** The outputs of `process_json`; the embedder always fills in the embedding. */
  datatype Output = MetaOut(meta: Metadata) | TextOut(id: string, text: string, embedding: Option<seq<real>>)

  /** The formatted text of a chunk of a routed kind. */
  function Format(kind: Kind, title: string, ch: Chunk, api: Api): string {
    var page := IntToString(ch.page.GetOr(0));
    var level := LevelText(ch.headingLevel);
    match kind
    case HeadingKind => HeadingText(title, Display(ch.text, api), page, level)
    case CaptionKind => CaptionText(title, Display(ch.text, api), page, level)
    case PseudoTableKind =>
      Strip(PseudoRaw(title, ElementsOf(ch.text, api), ch.pages.GetOr([]), ch.headingLevels.GetOr([])))
    case TableKind => Strip(TableRaw(title, TableRows(ch.text, api), ch.page.GetOr(0)))
    case _ => ParagraphText(title, Display(ch.text, api), page, level)
  }

  /** The kinds `process_json` formats and embeds; `classify_chunk`'s "metadata" is not one. */
  predicate Routed(kind: Kind) {
    kind == HeadingKind || kind == CaptionKind || kind == PseudoTableKind || kind == TableKind || kind == ParagraphKind
  }

  predicate IsMetadataChunk(ch: Chunk) {
    Contains(ch.id, "_metadata")
  }

  /** The state of the loop of `process_json`: the current title and the results so far. */
  datatype Progress = Progress(title: string, results: seq<Output>)

  const DefaultTitle: string := "Unknown Document"

  /**
   * `metadata.get("document_title", document_title)`: the key is always present, so this is the
   * document's title, and a null title is spelled "None" by the f-strings it goes into.
   */
  function ShownTitle(m: Metadata): string {
    if m.documentTitle.Some? then m.documentTitle.value else "None"
  }

  /** One chunk of `process_json`: `metadata.get` fails on a metadata chunk whose text is not a dict. */
  function Route(p: Progress, ch: Chunk, api: Api): Result<Progress> {
    if IsMetadataChunk(ch) then
      if ch.text.Meta? then
        var m := ch.text.meta;
        Ok(Progress(ShownTitle(m), p.results + [MetaOut(WithoutLists(m))]))
      else Err(AttributeError("get"))
    else
      var kind := ClassifyChunk(ch);
      if Routed(kind) then
        var text := Format(kind, p.title, ch, api);
        Ok(p.(results := p.results + [TextOut(ch.id, text, Some(api.embed(text)))]))
      else Ok(p)
  }

  /** `process_json` over the first chunks. */
  function ProcessAll(chunks: seq<Chunk>, api: Api): Result<Progress>
    decreases |chunks|
  {
    if chunks == [] then Ok(Progress(DefaultTitle, []))
    else
      var init := ProcessAll(chunks[..|chunks| - 1], api);
      if init.Err? then init else Route(init.value, chunks[|chunks| - 1], api)
  }

  /** The title the chunks leave behind: that of the last metadata chunk. */
  function LastTitle(chunks: seq<Chunk>): string
    decreases |chunks|
  {
    if chunks == [] then DefaultTitle
    else
      var ch := chunks[|chunks| - 1];
      if IsMetadataChunk(ch) && ch.text.Meta? then ShownTitle(ch.text.meta)
      else LastTitle(chunks[..|chunks| - 1])
  }

  /** A chunk that produces an output. */
  predicate Emits(ch: Chunk) {
    IsMetadataChunk(ch) || Routed(ClassifyChunk(ch))
  }

  function EmitsTest(): Chunk -> bool {
    (ch: Chunk) => Emits(ch)
  }

  /** The id the output of a chunk has. */
  function OutId(o: Output): string {
    if o.MetaOut? then "metadata" else o.id
  }

  function EmittedId(ch: Chunk): string {
    if IsMetadataChunk(ch) then "metadata" else ch.id
  }

  predicate FailsAt(ch: Chunk) {
    IsMetadataChunk(ch) && !ch.text.Meta?
  }

  lemma {:induction false} ProcessSnoc(chunks: seq<Chunk>, ch: Chunk, api: Api)
    ensures var init := ProcessAll(chunks, api);
            ProcessAll(chunks + [ch], api) == if init.Err? then init else Route(init.value, ch, api)
  {
    assert (chunks + [ch])[..|chunks|] == chunks;
  }

  /**
   * `process_json` fails exactly when some metadata chunk carries a string (a split metadata
   * chunk); otherwise the outputs are one per emitting chunk, in input order, with the chunk's id
   * ("metadata" for the metadata chunk), and the title after the loop is that of the last
   * metadata chunk ("None" when it is null), or "Unknown Document" without one.
   */
  lemma {:induction false} ProcessSpec(chunks: seq<Chunk>, api: Api)
    ensures ProcessAll(chunks, api).Err? <==> exists i :: 0 <= i < |chunks| && FailsAt(chunks[i])
    ensures ProcessAll(chunks, api).Ok? ==>
              MapSeq(ProcessAll(chunks, api).value.results, OutId) == MapSeq(Filter(chunks, EmitsTest()), EmittedId)
              && ProcessAll(chunks, api).value.title == LastTitle(chunks)
  {
    ProcessFails(chunks, api);
    ProcessIds(chunks, api);
    ProcessTitle(chunks, api);
  }

  lemma {:induction false} ProcessFails(chunks: seq<Chunk>, api: Api)
    ensures ProcessAll(chunks, api).Err? <==> exists i :: 0 <= i < |chunks| && FailsAt(chunks[i])
    decreases |chunks|
  {
    if chunks != [] {
      var init := chunks[..|chunks| - 1];
      ProcessFails(init, api);
      var p := ProcessAll(init, api);
      if p.Ok? {
        RouteFails(p.value, chunks[|chunks| - 1], api);
      }
      if exists i :: 0 <= i < |init| && FailsAt(init[i]) {
        var i :| 0 <= i < |init| && FailsAt(init[i]);
        assert init[i] == chunks[i];
      }
      if exists i :: 0 <= i < |chunks| && FailsAt(chunks[i]) {
        var i :| 0 <= i < |chunks| && FailsAt(chunks[i]);
        if i < |init| {
          assert init[i] == chunks[i];
        }
      }
    }
  }

  lemma {:induction false} ProcessIds(chunks: seq<Chunk>, api: Api)
    ensures ProcessAll(chunks, api).Ok? ==>
              MapSeq(ProcessAll(chunks, api).value.results, OutId) == MapSeq(Filter(chunks, EmitsTest()), EmittedId)
    decreases |chunks|
  {
    if chunks != [] {
      var init := chunks[..|chunks| - 1];
      var ch := chunks[|chunks| - 1];
      ProcessIds(init, api);
      var p := ProcessAll(init, api);
      if p.Ok? {
        RouteStep(p.value, ch, api);
        assert init + [ch] == chunks;
        MapFilterSnoc(init, ch, EmitsTest(), EmittedId);
      }
    }
  }

  lemma {:induction false} ProcessTitle(chunks: seq<Chunk>, api: Api)
    ensures ProcessAll(chunks, api).Ok? ==> ProcessAll(chunks, api).value.title == LastTitle(chunks)
    decreases |chunks|
  {
    if chunks != [] {
      var init := chunks[..|chunks| - 1];
      ProcessTitle(init, api);
      var p := ProcessAll(init, api);
      if p.Ok? {
        RouteStep(p.value, chunks[|chunks| - 1], api);
      }
    }
  }

  /** One chunk fails exactly at a metadata chunk without a dict, adds its id when it emits, and may set the title. */
  /** Routing one chunk fails exactly when that chunk is one `FailsAt` names. */
  lemma RouteFails(p: Progress, ch: Chunk, api: Api)
    ensures Route(p, ch, api).Err? <==> FailsAt(ch)
  {
  }

  lemma {:induction false} RouteStep(p: Progress, ch: Chunk, api: Api)
    ensures Route(p, ch, api).Err? <==> FailsAt(ch)
    ensures Route(p, ch, api).Ok? ==>
              MapSeq(Route(p, ch, api).value.results, OutId)
                == MapSeq(p.results, OutId) + (if Emits(ch) then [EmittedId(ch)] else [])
              && Route(p, ch, api).value.title
                == if IsMetadataChunk(ch) then ShownTitle(ch.text.meta) else p.title
  {
    var r := Route(p, ch, api);
    if r.Ok? && Emits(ch) {
      var last := r.value.results[|r.value.results| - 1];
      assert r.value.results == p.results + [last];
      assert OutId(last) == EmittedId(ch);
      assert MapSeq(r.value.results, OutId) == MapSeq(p.results, OutId) + [EmittedId(ch)];
    }
  }

  /**
   * The output of a routed chunk: its id, the template of its kind filled with the title in
   * force, and the embedding of exactly that text.
   */
  lemma RouteOutput(p: Progress, ch: Chunk, api: Api)
    requires !IsMetadataChunk(ch) && Routed(ClassifyChunk(ch))
    ensures var text := Format(ClassifyChunk(ch), p.title, ch, api);
            Route(p, ch, api) == Ok(Progress(p.title, p.results + [TextOut(ch.id, text, Some(api.embed(text)))]))
  {
  }

  /** `PDFEmbedder`; construction fails without an API key. */
  class PdfEmbedder {
    const model: string
    const openaiKey: string
    const api: Api

    constructor(model: string, openaiKey: string, api: Api)
      requires openaiKey != ""
      ensures this.model == model && this.openaiKey == openaiKey && this.api == api
    {
      this.model := model;
      this.openaiKey := openaiKey;
      this.api := api;
    }

    /** `_process_table`: the text is built row by row and stripped at the end. */
    method ProcessTable(documentTitle: string, text: Value, page: int) returns (r: string)
      ensures r == Strip(TableRaw(documentTitle, TableRows(text, api), page))
    {
      var rows := TableRows(text, api);
      var structuredText := documentTitle + " - Table (Page " + IntToString(page) + "): ";
      for i := 0 to |rows|
        invariant structuredText == TableHeader(documentTitle, page) + Flatten(MapSeq(rows[..i], RowLine()))
      {
        TableStep(documentTitle, rows, page, i);
        structuredText := structuredText + ("Row: " + Join(" | ", rows[i]) + "; ");
      }
      assert rows[..|rows|] == rows;
      r := Strip(structuredText);
    }

    /** `_process_pseudo_table`: one numbered entry per line, from 1, stripped at the end. */
    method ProcessPseudoTable(documentTitle: string, text: Value, pages: seq<int>, headingLevels: seq<int>) returns (r: string)
      ensures r == Strip(PseudoRaw(documentTitle, ElementsOf(text, api), pages, headingLevels))
    {
      var lines := ElementsOf(text, api);
      var structuredText := documentTitle + " - Pseudotable (Pages " + Join(", ", IntsToStrings(pages))
                            + ", Heading Levels " + Join(", ", IntsToStrings(headingLevels)) + "): ";
      for i := 0 to |lines|
        invariant structuredText == PseudoHeader(documentTitle, pages, headingLevels) + Flatten(NumberedLines(lines[..i]))
      {
        PseudoStep(documentTitle, lines, pages, headingLevels, i);
        structuredText := structuredText + ("Line " + NatToString(i + 1) + ": " + lines[i] + "; ");
      }
      assert lines[..|lines|] == lines;
      r := Strip(structuredText);
    }

    /** The formatting and embedding of one routed chunk. */
    method Embed(kind: Kind, documentTitle: string, ch: Chunk) returns (o: Output)
      requires Routed(kind)
      ensures var text := Format(kind, documentTitle, ch, api);
              o == TextOut(ch.id, text, Some(api.embed(text)))
    {
      var text := ch.text;
      var page := ch.page.GetOr(0);
      var headingLevel := LevelText(ch.headingLevel);
      var processedText: string;
      if kind == HeadingKind {
        processedText := HeadingText(documentTitle, Display(text, api), IntToString(page), headingLevel);
      } else if kind == CaptionKind {
        processedText := CaptionText(documentTitle, Display(text, api), IntToString(page), headingLevel);
      } else if kind == PseudoTableKind {
        processedText := ProcessPseudoTable(documentTitle, text, ch.pages.GetOr([]), ch.headingLevels.GetOr([]));
      } else if kind == TableKind {
        processedText := ProcessTable(documentTitle, text, page);
      } else {
        processedText := ParagraphText(documentTitle, Display(text, api), IntToString(page), headingLevel);
      }
      var embedding := api.embed(processedText);
      o := TextOut(ch.id, processedText, Some(embedding));
    }

    /** `process_json`: the results it yields one by one, or the exception that ends it. */
    method ProcessJson(doc: seq<Chunk>) returns (r: Result<seq<Output>>)
      ensures ProcessAll(doc, api).Err? ==> r.Err?
      ensures r.Err? ==> ProcessAll(doc, api).Err? && r.error == AttributeError("get")
      ensures ProcessAll(doc, api).Ok? ==> r == Ok(ProcessAll(doc, api).value.results)
    {
      var results: seq<Output> := [];
      var documentTitle := DefaultTitle;
      for i := 0 to |doc|
        invariant ProcessAll(doc[..i], api) == Ok(Progress(documentTitle, results))
      {
        var singleDoc := doc[i];
        ProcessSnoc(doc[..i], singleDoc, api);
        assert doc[..i] + [singleDoc] == doc[..i + 1];
        if Contains(singleDoc.id, "_metadata") {
          if !singleDoc.text.Meta? {
            FailedStays(doc, i + 1, api);
            return Err(AttributeError("get"));
          }
          var metadata := singleDoc.text.meta;
          // The key is always present; a null title is printed as "None".
          documentTitle := if metadata.documentTitle.Some? then metadata.documentTitle.value else "None";
          results := results + [MetaOut(metadata.(captions := None, tables := None, pseudoTables := None, headings := None))];
        } else {
          var chunkType := ClassifyChunk(singleDoc);
          if Routed(chunkType) {
            var o := Embed(chunkType, documentTitle, singleDoc);
            results := results + [o];
          }
        }
      }
      assert doc[..|doc|] == doc;
      return Ok(results);
    }
  }

  /** Once a prefix has failed, the whole run fails the same way. */
  lemma {:induction false} FailedStays(chunks: seq<Chunk>, k: nat, api: Api)
    requires k <= |chunks| && ProcessAll(chunks[..k], api).Err?
    ensures ProcessAll(chunks, api) == ProcessAll(chunks[..k], api)
    decreases |chunks| - k
  {
    if k < |chunks| {
      ProcessSnoc(chunks[..k], chunks[k], api);
      assert chunks[..k] + [chunks[k]] == chunks[..k + 1];
      FailedStays(chunks, k + 1, api);
    } else {
      assert chunks[..k] == chunks;
    }
  }

  /** The constructor's check: `if not self.openai_key: raise ValueError(...)`. */
  method NewPdfEmbedder(model: string, openaiKey: Option<string>, api: Api) returns (r: Result<PdfEmbedder>)
    ensures r.Err? <==> openaiKey.None? || openaiKey.value == ""
    ensures r.Err? ==> r.error == ValueError("OpenAI API key must be provided.")
    ensures r.Ok? ==> fresh(r.value) && r.value.model == model && r.value.api == api
  {
    if openaiKey.None? || openaiKey.value == "" {
      return Err(ValueError("OpenAI API key must be provided."));
    }
    var e := new PdfEmbedder(model, openaiKey.value, api);
    return Ok(e);
  }
}
