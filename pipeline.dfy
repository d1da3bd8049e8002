/**
 * How the stages hand the document title on: the loader writes the PDF's Title entry into
 * "document_title", the title extraction overwrites it only when it finds a title, and the
 * chunker builds its ids from what is left, raising on a null title.
 */
module Pipeline {
  import opened Wrappers
  import opened Strings
  import opened DocModel
  import Loader
  import Headers
  import Preprocessing
  import Chunking

  /**
   * For a loaded PDF, after preprocessing, the chunk ids start with the extracted title; without
   * one, with the PDF's Title entry; and with neither, `chunk_document` raises AttributeError.
   */
  lemma {:induction false} ChunkTitleOfLoadedPdf(libs: Loader.Libs, info: Loader.PdfInfo, file: Loader.FileInfo,
                                                 raw: seq<Loader.RawPage>, doc: Document, ratio: Headers.Ratio,
                                                 c: Chunking.Codec, lim: Chunking.Limits)
    requires doc.metadata == Loader.LoadedMetadata(libs, info, file, raw) && doc.tables.Some?
    ensures Preprocessing.Preprocess(doc, ratio).Ok?
    ensures var t := Preprocessing.TitleOf(AllParagraphs(doc.pages));
            var m := Preprocessing.Preprocess(doc, ratio).value.0.metadata;
            Chunking.DocTitle(m)
              == if t.Some? then Ok(ReplaceChar(t.value, ' ', '_'))
                 else if info.title.Some? then Ok(ReplaceChar(info.title.value, ' ', '_'))
                 else Err(AttributeError("replace"))
    ensures Preprocessing.TitleOf(AllParagraphs(doc.pages)).None? && info.title.None? ==>
              Chunking.DocumentChunks(Preprocessing.Preprocess(doc, ratio).value.0, c, lim) == Err(AttributeError("replace"))
  {
    Preprocessing.PreprocessTitle(doc, ratio);
    Chunking.DocumentChunksFail(Preprocessing.Preprocess(doc, ratio).value.0, c, lim);
  }
}
