/**
 * The bookkeeping of the vector store: three parallel lists (embeddings, unique chunk ids,
 * texts) that grow together as documents are added, a search that maps index positions back
 * to chunk ids, and a look-up of the text stored under a chunk id.
 *
 * The FAISS index itself is abstract: the model only records whether there is one, and a
 * search is given the positions and distances the index answers with.
 */
module VectorStore {
  import opened Wrappers
  import opened Strings
  import opened DocModel
  import opened Embedding

  /** The document a stored chunk comes from: its title and its file hash. */
  datatype Source = Source(title: string, hash: string)

  /**
   * What a metadata output sets `document_title` and `file_hash` to. Both keys are always
   * present, so their defaults are never taken; a null title leaves no source.
   */
  function SourceOf(m: Metadata): Option<Source> {
    if m.documentTitle.Some? then Some(Source(m.documentTitle.value, m.fileHash)) else None
  }

  /** The source set by the last metadata output among the items, none before the first. */
  function SourceBefore(items: seq<Output>): Option<Source>
    decreases |items|
  {
    if items == [] then None
    else if items[|items| - 1].MetaOut? then SourceOf(items[|items| - 1].meta)
    else SourceBefore(items[..|items| - 1])
  }

  /**
   * No source before the first metadata output; after it, what the most recent one sets: its
   * title and hash, or none when its title is null.
   */
  lemma {:induction false} SourceBeforeSpec(items: seq<Output>)
    ensures (forall j :: 0 <= j < |items| ==> !items[j].MetaOut?) ==> SourceBefore(items).None?
    ensures forall j :: 0 <= j < |items| && items[j].MetaOut? && (forall l :: j < l < |items| ==> !items[l].MetaOut?) ==>
              SourceBefore(items) == SourceOf(items[j].meta)
    decreases |items|
  {
    if items != [] {
      var n := |items| - 1;
      var init := items[..n];
      SourceBeforeSpec(init);
      assert forall j :: 0 <= j < n ==> init[j] == items[j];
      forall j | 0 <= j < |items| && items[j].MetaOut? && (forall l :: j < l < |items| ==> !items[l].MetaOut?)
        ensures SourceBefore(items) == SourceOf(items[j].meta)
      {
        if j < n {
          assert !items[n].MetaOut?;
          assert init[j].MetaOut? && forall l :: j < l < n ==> !init[l].MetaOut?;
        }
      }
    }
  }

  /** After a metadata output with a null title, no item is stored until the next metadata output. */
  lemma {:induction false} NullTitleSkips(items: seq<Output>, j: nat, i: nat)
    requires j < i < |items| && items[j].MetaOut? && items[j].meta.documentTitle.None?
    requires forall l :: j < l < i ==> !items[l].MetaOut?
    ensures !Kept(items, i)
  {
    var pre := items[..i];
    assert pre[j] == items[j] && forall l :: j < l < i ==> pre[l] == items[l];
    SourceBeforeSpec(pre);
  }

  /** `.get` on the text of a "metadata" item that is a string raises. */
  predicate BadMetadata(o: Output) {
    o.TextOut? && o.id == "metadata"
  }

  /** An item that is stored: a text with an embedding, after some metadata. */
  predicate Kept(items: seq<Output>, i: nat)
    requires i < |items|
  {
    items[i].TextOut? && items[i].id != "metadata" && items[i].embedding.Some? && SourceBefore(items[..i]).Some?
  }

  /** One stored chunk: its unique id, its embedding and its stripped text. */
  datatype Record = Record(chunkId: string, embedding: seq<real>, text: string)

  /** The id a chunk is stored under: title, chunk id and file hash, joined by "_". */
  function UniqueId(src: Source, chunkId: string): string {
    src.title + "_" + chunkId + "_" + src.hash
  }

  function RecordAt(items: seq<Output>, i: nat): Record
    requires i < |items| && Kept(items, i)
  {
    Record(UniqueId(SourceBefore(items[..i]).value, items[i].id), items[i].embedding.value, Strip(items[i].text))
  }

  /** The records of `extract_embeddings`, in item order. */
  function Records(items: seq<Output>): seq<Record>
    decreases |items|
  {
    if items == [] then []
    else
      var n := |items| - 1;
      Records(items[..n]) + (if Kept(items, n) then [RecordAt(items, n)] else [])
  }

  lemma {:induction false} RecordsStep(items: seq<Output>, i: nat)
    requires i < |items|
    ensures Records(items[..i + 1]) == Records(items[..i]) + (if Kept(items, i) then [RecordAt(items, i)] else [])
  {
    var pre := items[..i + 1];
    assert pre[..i] == items[..i];
    assert Kept(pre, i) == Kept(items, i);
    if Kept(items, i) {
      assert RecordAt(pre, i) == RecordAt(items, i);
    }
  }

  /** Every record comes from a kept item, carrying that item's id, embedding and stripped text. */
  lemma {:induction false} RecordsOrigin(items: seq<Output>)
    ensures forall k :: 0 <= k < |Records(items)| ==>
              exists i :: 0 <= i < |items| && Kept(items, i) && Records(items)[k] == RecordAt(items, i)
    decreases |items|
  {
    if items != [] {
      var n := |items| - 1;
      var pre := items[..n];
      RecordsOrigin(pre);
      var last := if Kept(items, n) then [RecordAt(items, n)] else [];
      assert Records(items) == Records(pre) + last;
      forall k | 0 <= k < |Records(items)|
        ensures exists i :: 0 <= i < |items| && Kept(items, i) && Records(items)[k] == RecordAt(items, i)
      {
        if k < |Records(pre)| {
          assert Records(items)[k] == Records(pre)[k];
          var i :| 0 <= i < |pre| && Kept(pre, i) && Records(pre)[k] == RecordAt(pre, i);
          PrefixKeeps(items, n, i);
        } else {
          assert Kept(items, n) && Records(items)[k] == RecordAt(items, n);
        }
      }
    } else {
      assert Records(items) == [];
    }
  }

  /** Whether an item is kept, and its record, depend only on the items up to it. */
  lemma {:induction false} PrefixKeeps(items: seq<Output>, n: nat, i: nat)
    requires i < n <= |items|
    ensures Kept(items[..n], i) == Kept(items, i)
    ensures Kept(items, i) ==> RecordAt(items[..n], i) == RecordAt(items, i)
  {
    assert items[..n][..i] == items[..i];
  }

  /** Every kept item gives a record. */
  lemma {:induction false} RecordsComplete(items: seq<Output>)
    ensures forall i :: 0 <= i < |items| && Kept(items, i) ==> RecordAt(items, i) in Records(items)
    decreases |items|
  {
    if items != [] {
      var n := |items| - 1;
      var pre := items[..n];
      RecordsComplete(pre);
      forall i | 0 <= i < |items| && Kept(items, i)
        ensures RecordAt(items, i) in Records(items)
      {
        if i < n {
          PrefixKeeps(items, n, i);
          assert RecordAt(pre, i) in Records(pre);
        }
      }
    }
  }

  /** Items before the first metadata output are never stored. */
  lemma {:induction false} NothingBeforeMetadata(items: seq<Output>)
    requires forall j :: 0 <= j < |items| ==> !items[j].MetaOut?
    ensures Records(items) == []
  {
    if items != [] {
      var n := |items| - 1;
      assert forall j :: 0 <= j < n ==> items[..n][j] == items[j];
      NothingBeforeMetadata(items[..n]);
      SourceBeforeSpec(items[..n]);
    }
  }

  /** The three lists `extract_embeddings` returns. */
  datatype Columns = Columns(chunkIds: seq<string>, embeddings: seq<seq<real>>, texts: seq<string>)

  /** The records as three lists of equal length, aligned by position. */
  function ColumnsOf(rs: seq<Record>): (c: Columns)
    ensures |c.chunkIds| == |rs| && |c.embeddings| == |rs| && |c.texts| == |rs|
    ensures forall k :: 0 <= k < |rs| ==>
              c.chunkIds[k] == rs[k].chunkId && c.embeddings[k] == rs[k].embedding && c.texts[k] == rs[k].text
  {
    Columns(seq(|rs|, k requires 0 <= k < |rs| => rs[k].chunkId),
            seq(|rs|, k requires 0 <= k < |rs| => rs[k].embedding),
            seq(|rs|, k requires 0 <= k < |rs| => rs[k].text))
  }

  lemma ColumnsSnoc(rs: seq<Record>, x: Record)
    ensures ColumnsOf(rs + [x]) == Columns(ColumnsOf(rs).chunkIds + [x.chunkId],
                                           ColumnsOf(rs).embeddings + [x.embedding],
                                           ColumnsOf(rs).texts + [x.text])
  {
  }

  /** `extract_embeddings`: a "metadata" item whose text is a string makes it raise. */
  function Extract(items: seq<Output>): Result<Columns> {
    if exists i :: 0 <= i < |items| && BadMetadata(items[i]) then Err(AttributeError("get"))
    else Ok(ColumnsOf(Records(items)))
  }

  /** A search hit as the index answers it: a distance and a position (-1 when there is none). */
  datatype Hit = Hit(distance: real, index: int)

  /** One result of `search_vektor`. */
  datatype Match = Match(chunkId: string, distance: real)

  /** One result of `search`. */
  datatype Found = Found(chunkId: string, distance: real, text: string)

  function Below(n: int): Hit -> bool {
    (h: Hit) => h.index < n
  }

  /**
   * `search_vektor` on the index's answer: hits at a position below the number of ids are kept
   * in order, and a negative position counts from the end as Python does; one below -len raises.
   */
  function SearchResult(ids: seq<string>, hits: seq<Hit>): (r: Result<seq<Match>>)
    ensures r.Err? <==> exists i :: 0 <= i < |hits| && hits[i].index < -|ids|
    ensures r.Err? ==> r.error == IndexError
    ensures r.Ok? ==> |r.value| <= |hits| && forall m :: m in r.value ==> m.chunkId in ids
    decreases |hits|
  {
    if hits == [] then Ok([])
    else
      var pre := hits[..|hits| - 1];
      var h := hits[|hits| - 1];
      assert forall i :: 0 <= i < |pre| ==> pre[i] == hits[i];
      var init := SearchResult(ids, pre);
      if init.Err? then init
      else if h.index < |ids| then
        if h.index < -|ids| then Err(IndexError)
        else Ok(init.value + [Match(PyIndex(ids, h.index).value, h.distance)])
      else init
  }

  lemma {:induction false} SearchSnoc(ids: seq<string>, hits: seq<Hit>, i: nat)
    requires i < |hits|
    ensures var init := SearchResult(ids, hits[..i]);
            var h := hits[i];
            SearchResult(ids, hits[..i + 1])
            == if init.Err? then init
               else if h.index < |ids| then
                 if h.index < -|ids| then Err(IndexError)
                 else Ok(init.value + [Match(PyIndex(ids, h.index).value, h.distance)])
               else init
  {
    assert hits[..i + 1][..i] == hits[..i];
  }

  /** With no negative positions the results are exactly the in-range hits, in order, with their ids. */
  lemma {:induction false} SearchKeepsInRange(ids: seq<string>, hits: seq<Hit>)
    requires forall i :: 0 <= i < |hits| ==> 0 <= hits[i].index
    ensures SearchResult(ids, hits).Ok?
    ensures var ms := SearchResult(ids, hits).value;
            var kept := Filter(hits, Below(|ids|));
            |ms| == |kept|
            && forall k :: 0 <= k < |kept| ==> 0 <= kept[k].index < |ids| && ms[k] == Match(ids[kept[k].index], kept[k].distance)
    decreases |hits|
  {
    if hits != [] {
      var pre := hits[..|hits| - 1];
      var h := hits[|hits| - 1];
      assert pre + [h] == hits;
      SearchKeepsInRange(ids, pre);
      FilterSnoc(pre, h, Below(|ids|));
    }
  }

  /**
   * With fewer vectors than requested the index answers -1, and the check lets it through: such
   * a hit is reported as the last stored chunk.
   */
  lemma {:induction false} MissingHitIsLastChunk(ids: seq<string>, hits: seq<Hit>)
    requires ids != [] && forall i :: 0 <= i < |hits| ==> hits[i].index == -1
    ensures SearchResult(ids, hits).Ok?
    ensures var ms := SearchResult(ids, hits).value;
            |ms| == |hits| && forall k :: 0 <= k < |hits| ==> ms[k] == Match(ids[|ids| - 1], hits[k].distance)
    decreases |hits|
  {
    if hits != [] {
      var pre := hits[..|hits| - 1];
      assert forall i :: 0 <= i < |pre| ==> pre[i] == hits[i];
      MissingHitIsLastChunk(ids, pre);
    }
  }

  const NotFound: string := "Text nicht gefunden."

  /**
   * `dict(zip(ids, texts)).get(key, ...)`: the zip stops at the shorter list and a later
   * equal id overwrites an earlier one, so the text is that of the last match.
   */
  function LookupText(ids: seq<string>, texts: seq<string>, key: string): (r: string)
    ensures (forall j :: 0 <= j < Min(|ids|, |texts|) ==> ids[j] != key) ==> r == NotFound
    ensures (exists j :: 0 <= j < Min(|ids|, |texts|) && ids[j] == key) ==>
              exists j :: 0 <= j < Min(|ids|, |texts|) && ids[j] == key && r == texts[j]
                          && forall l :: j < l < Min(|ids|, |texts|) ==> ids[l] != key
  {
    var last := LastIndexBelow(ids, key, Min(|ids|, |texts|));
    if last.Some? then texts[last.value] else NotFound
  }

  function FoundOf(ids: seq<string>, texts: seq<string>, m: Match): Found {
    Found(m.chunkId, m.distance, LookupText(ids, texts, m.chunkId))
  }

  /** `search`: the matches of `search_vektor`, each with its text. */
  function SearchWithTexts(ids: seq<string>, texts: seq<string>, hits: seq<Hit>): Result<seq<Found>> {
    var ms := SearchResult(ids, hits);
    if ms.Err? then Err(ms.error)
    else Ok(MapSeq(ms.value, (m: Match) => FoundOf(ids, texts, m)))
  }

  /**
   * While the ids and texts are as long as each other every result carries a stored text:
   * that of the last entry with its id.
   */
  lemma {:induction false} SearchFindsTexts(ids: seq<string>, texts: seq<string>, hits: seq<Hit>)
    requires |ids| == |texts|
    requires SearchWithTexts(ids, texts, hits).Ok?
    ensures forall f :: f in SearchWithTexts(ids, texts, hits).value ==>
              exists j :: 0 <= j < |ids| && ids[j] == f.chunkId && f.text == texts[j]
                          && forall l :: j < l < |ids| ==> ids[l] != f.chunkId
  {
    var ms := SearchResult(ids, hits).value;
    var fs := SearchWithTexts(ids, texts, hits).value;
    forall f | f in fs
      ensures exists j :: 0 <= j < |ids| && ids[j] == f.chunkId && f.text == texts[j]
                          && forall l :: j < l < |ids| ==> ids[l] != f.chunkId
    {
      var k :| 0 <= k < |fs| && fs[k] == f;
      assert ms[k] in ms;
      var j0 :| 0 <= j0 < |ids| && ids[j0] == ms[k].chunkId;
      assert f == FoundOf(ids, texts, ms[k]);
    }
  }

  /** The message `add_embeddings` raises with. */
  const MismatchMessage: string := "Die Anzahl der Embeddings stimmt nicht mit der Anzahl der Chunk-IDs überein!"

  /** `FAISSStore`: the parallel lists and whether an index is present. */
  class FaissStore {
    const indexFile: string
    const dim: int
    var hasIndex: bool
    var embeddingsList: seq<seq<real>>
    var chunkIds: seq<string>
    var texts: seq<string>

    /** As many embeddings as chunk ids: what `add_embeddings` checks. */
    predicate Aligned()
      reads this
    {
      |embeddingsList| == |chunkIds|
    }

    /** Loading an existing index or creating a new one: either way there is an index. */
    constructor(indexFile: string, dim: int)
      ensures this.indexFile == indexFile && this.dim == dim
      ensures hasIndex && embeddingsList == [] && chunkIds == [] && texts == []
    {
      this.indexFile := indexFile;
      this.dim := dim;
      hasIndex := true;
      embeddingsList := [];
      chunkIds := [];
      texts := [];
    }

    /** `delete_index`: the texts are left as they were, but no id can reach them any more. */
    method DeleteIndex()
      modifies this
      ensures !hasIndex && embeddingsList == [] && chunkIds == [] && texts == old(texts)
      ensures forall key :: TextByChunkId(key) == NotFound
    {
      hasIndex := false;
      embeddingsList := [];
      chunkIds := [];
    }

    /** `extract_embeddings` */
    method ExtractEmbeddings(doc: seq<Output>) returns (r: Result<Columns>)
      ensures r == Extract(doc)
    {
      var chunkIds: seq<string> := [];
      var embeddings: seq<seq<real>> := [];
      var texts: seq<string> := [];
      var documentTitle: Option<string> := None;
      var fileHash: Option<string> := None;
      for i := 0 to |doc|
        invariant SourceBefore(doc[..i])
                  == if documentTitle.Some? && fileHash.Some? then Some(Source(documentTitle.value, fileHash.value)) else None
        invariant Columns(chunkIds, embeddings, texts) == ColumnsOf(Records(doc[..i]))
        invariant forall j :: 0 <= j < i ==> !BadMetadata(doc[j])
      {
        var singleDoc := doc[i];
        RecordsStep(doc, i);
        assert doc[..i + 1][..i] == doc[..i];
        if OutId(singleDoc) == "metadata" {
          if singleDoc.TextOut? {
            assert BadMetadata(doc[i]);
            return Err(AttributeError("get"));
          }
          // `.get("document_title", "Unknown_Title")`: the key is always present, possibly null.
          documentTitle := singleDoc.meta.documentTitle;
          fileHash := Some(singleDoc.meta.fileHash);
          continue;
        }
        if documentTitle.None? || fileHash.None? {
          continue;
        }
        var embedding := singleDoc.embedding;
        var text := Strip(singleDoc.text);
        if embedding.Some? {
          var uniqueChunkId := documentTitle.value + "_" + singleDoc.id + "_" + fileHash.value;
          ColumnsSnoc(Records(doc[..i]), RecordAt(doc, i));
          chunkIds := chunkIds + [uniqueChunkId];
          embeddings := embeddings + [embedding.value];
          texts := texts + [text];
        }
      }
      assert doc[..|doc|] == doc;
      return Ok(Columns(chunkIds, embeddings, texts));
    }

    /** `add_embeddings`: the lists grow in lockstep; the length check comes after the growth. */
    method AddEmbeddings(newEmbeddings: seq<seq<real>>, newChunkIds: seq<string>, newTexts: seq<string>)
      returns (r: Result<()>)
      modifies this
      ensures newEmbeddings == [] ==> r == Ok(()) && unchanged(this)
      ensures newEmbeddings != [] && !old(hasIndex) ==> r == Err(AttributeError("add")) && unchanged(this)
      ensures newEmbeddings != [] && old(hasIndex) ==>
                hasIndex && embeddingsList == old(embeddingsList) + newEmbeddings
                && chunkIds == old(chunkIds) + newChunkIds && texts == old(texts) + newTexts
                && (r.Err? <==> !Aligned()) && (r.Err? ==> r.error == ValueError(MismatchMessage))
      ensures old(Aligned()) && |newEmbeddings| == |newChunkIds| && (old(hasIndex) || newEmbeddings == []) ==>
                r.Ok? && Aligned()
    {
      if newEmbeddings == [] {
        return Ok(());
      }
      if !hasIndex {
        return Err(AttributeError("add"));
      }
      embeddingsList := embeddingsList + newEmbeddings;
      chunkIds := chunkIds + newChunkIds;
      texts := texts + newTexts;
      if |embeddingsList| != |chunkIds| {
        return Err(ValueError(MismatchMessage));
      }
      return Ok(());
    }

    /**
     * `process_json_and_add`: what extraction yields is added, and saving the index fails when
     * there is none. Starting from aligned lists, adding extracted columns keeps them aligned.
     */
    method ProcessJsonAndAdd(doc: seq<Output>) returns (r: Result<()>)
      modifies this
      ensures Extract(doc).Err? ==> r == Err(Extract(doc).error) && unchanged(this)
      ensures !old(hasIndex) ==> r.Err? && unchanged(this)
      ensures old(hasIndex) && Extract(doc).Ok? ==>
                var c := Extract(doc).value;
                hasIndex && embeddingsList == old(embeddingsList) + c.embeddings
                && chunkIds == old(chunkIds) + c.chunkIds && texts == old(texts) + c.texts
                && (old(Aligned()) ==> r.Ok? && Aligned())
    {
      var extracted := ExtractEmbeddings(doc);
      if extracted.Err? {
        return Err(extracted.error);
      }
      var c := extracted.value;
      if c.embeddings != [] {
        var added := AddEmbeddings(c.embeddings, c.chunkIds, c.texts);
        if added.Err? {
          return added;
        }
      }
      if !hasIndex {
        return Err(TypeError("write_index"));
      }
      return Ok(());
    }

    /** `search_vektor`, given the index's answer to the query. */
    method SearchVektor(hits: seq<Hit>) returns (r: Result<seq<Match>>)
      ensures !hasIndex ==> r == Err(AttributeError("search"))
      ensures hasIndex ==> r == SearchResult(chunkIds, hits)
    {
      if !hasIndex {
        return Err(AttributeError("search"));
      }
      var ids := chunkIds;
      var results: seq<Match> := [];
      for i := 0 to |hits|
        invariant SearchResult(ids, hits[..i]) == Ok(results)
      {
        SearchSnoc(ids, hits, i);
        var index := hits[i].index;
        if index < |ids| {
          if index < -|ids| {
            return Err(IndexError);
          }
          var chunkId := if index >= 0 then ids[index] else ids[|ids| + index];
          results := results + [Match(chunkId, hits[i].distance)];
        }
      }
      assert hits[..|hits|] == hits;
      return Ok(results);
    }

    /** `get_text_by_chunk_id` */
    function TextByChunkId(chunkId: string): string
      reads this
    {
      LookupText(chunkIds, texts, chunkId)
    }

    /** `search`: the matches with their texts, in the order of the hits. */
    method Search(hits: seq<Hit>) returns (r: Result<seq<Found>>)
      ensures !hasIndex ==> r == Err(AttributeError("search"))
      ensures hasIndex ==> r == SearchWithTexts(chunkIds, texts, hits)
    {
      var searchResults := SearchVektor(hits);
      if searchResults.Err? {
        return Err(searchResults.error);
      }
      var ms := searchResults.value;
      var ids, txts := chunkIds, texts;
      var results: seq<Found> := [];
      for i := 0 to |ms|
        invariant results == MapSeq(ms[..i], (m: Match) => FoundOf(ids, txts, m))
      {
        MapSnoc(ms, i, (m: Match) => FoundOf(ids, txts, m));
        var text := TextByChunkId(ms[i].chunkId);
        results := results + [Found(ms[i].chunkId, ms[i].distance, text)];
      }
      assert ms[..|ms|] == ms;
      return Ok(results);
    }
  }
}
