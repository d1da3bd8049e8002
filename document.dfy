/**
 * The document structure that flows from the loader through the preprocessor to the chunker:
 * pages of paragraphs, the extracted tables and the document-level metadata.
 *
 * Font sizes and vertical positions are PDF points given as exact decimals, integers in units of
 * 1/10000 pt. Rounding and comparisons are exact decimal arithmetic on them, not arithmetic on
 * binary doubles.
 */
module DocModel {
  import opened Wrappers
  import opened Strings

  /** Units per point. */
  const Unit: int := 10000

  /**
   * Round the exact value to the nearest multiple of `step`, a tie going to the even multiple.
   * Python's `round` rounds the nearest binary double instead, so at a decimal tie it can go the
   * other way (`round(12.35, 1)` is 12.3).
   */
  function RoundTo(x: int, step: int): (r: int)
    requires step > 0
    ensures 2 * Abs(x - r) <= step
  {
    var q := x / step;
    var rem := x % step;
    assert (q + 1) * step == q * step + step;
    if 2 * rem > step || (2 * rem == step && q % 2 == 1) then (q + 1) * step else q * step
  }

  /** `round(x, 2)` on the exact value: the nearest multiple of 0.01 pt. */
  function Round2(x: int): (r: int)
    ensures 2 * Abs(x - r) <= 100 && r % 100 == 0
  {
    var q := x / 100;
    var rem := x % 100;
    var r := RoundTo(x, Unit / 100);
    assert r == q * 100 || r == (q + 1) * 100;
    r
  }

  /** `round(x, 1)` on the exact value: the nearest multiple of 0.1 pt. */
  function Round1(x: int): int { RoundTo(x, Unit / 10) }

  /** The `is_type` tag of a paragraph. */
  datatype ParaType = Normal | Heading | Caption | PseudoTable

  function TypeName(t: ParaType): string {
    match t
    case Normal => "normal"
    case Heading => "heading"
    case Caption => "caption"
    case PseudoTable => "pseudo_table"
  }

  /**
   * A paragraph record. The loader writes every field except `heading_level` and `is_type`;
   * those start as 0 and Normal here and the heading pass overwrites both before anything reads them.
   */
  datatype Paragraph = Paragraph(
    text: string,
    fontSize: int,
    fontNames: seq<string>,
    textHash: string,
    y: int,
    links: seq<string>,
    headingLevel: int,
    isType: ParaType)

  datatype Page = Page(
    number: int,
    text: string,
    isEmpty: bool,
    textLength: nat,
    pageHash: string,
    paragraphs: seq<Paragraph>,
    links: set<string>)

  datatype HeadingEntry = HeadingEntry(text: string, level: int, fontSize: int, page: int)

  datatype TableEntry = TableEntry(page: int, table: seq<seq<string>>, tableText: string)

  datatype PseudoTableEntry = PseudoTableEntry(
    text: string, pages: seq<int>, headingLevels: seq<int>, contents: seq<string>)

  datatype CaptionEntry = CaptionEntry(text: string, page: int, headingLevels: seq<int>)

  /**
   * Document metadata. `documentTitle` is the "document_title" key, which the loader always
   * writes: the PDF's Title entry, None (JSON null) when the PDF has none, and the title
   * extraction overwrites it when it finds a title. The loader's other PDF fields (`author` to
   * `createdAt`) are None when the PDF has no such entry; the fields after `allLinks` are None
   * while no stage has written their key.
   */
  datatype Metadata = Metadata(
    language: string,
    documentTitle: Option<string>,
    author: Option<string>,
    subject: Option<string>,
    producer: Option<string>,
    createdAt: Option<string>,
    fileName: string,
    filePath: string,
    fileSize: nat,
    fileHash: string,
    numPages: nat,
    allLinks: set<string>,
    fontSizeStats: seq<(int, nat)>,
    mainFontSize: Option<int>,
    candidateSizes: seq<int>,
    recognizedHeaders: Option<seq<string>>,
    recognizedFooters: Option<seq<string>>,
    headings: Option<seq<HeadingEntry>>,
    tables: Option<seq<TableEntry>>,
    pseudoTables: Option<seq<PseudoTableEntry>>,
    captions: Option<seq<CaptionEntry>>)

  /** The whole document; `tables` is the top-level "tables" key, which preprocessing deletes. */
  datatype Document = Document(metadata: Metadata, pages: seq<Page>, tables: Option<seq<TableEntry>>)

  /** All paragraphs of all pages in page order (`_collect_paragraphs`). */
  function AllParagraphs(pages: seq<Page>): (r: seq<Paragraph>)
    ensures pages == [] ==> r == []
    decreases |pages|
  {
    if pages == [] then [] else AllParagraphs(pages[..|pages| - 1]) + pages[|pages| - 1].paragraphs
  }
}
