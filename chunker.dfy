/**
 * The chunk partitioner: it turns a preprocessed document into id-stamped chunks, in the
 * order metadata, headings, tables, pseudo-tables, captions and then the paragraphs page by
 * page.
 *
 * Text is split by token count: every piece of the loop takes the next `max` tokens and is
 * prefixed with a few characters of the previous piece, and a short last piece is merged back
 * onto the one before it. Tables are packed row by row into chunks of at most `max` tokens.
 * The tokenizer and the JSON serialiser are parameters.
 */
module Chunking {
  import opened Wrappers
  import opened Strings
  import opened DocModel

  type Positive = n: nat | n > 0 witness 1

  /**
   * `max_chunk_length` (tokens), `overlap_length` (characters) and `min_chunk_length`
   * (characters for text, tokens for tables). A bound of 0 or less would make the split loop run
   * forever, so the model asks for a positive one.
   */
  datatype Limits = Limits(max: Positive, overlap: int, min: int)

  /** The tokenizer (`encode`/`decode`) and the lengths-relevant `json.dumps` calls. */
  datatype Codec = Codec(
    encode: string -> seq<int>,
    decode: seq<int> -> string,
    dumpsMetadata: Metadata -> string,
    dumpsTable: seq<seq<string>> -> string,
    dumpsLines: seq<string> -> string)

  /** The `text` value of a chunk: a string, pseudo-table lines, table rows or the metadata. */
  datatype Value = Str(s: string) | Lines(lines: seq<string>) | Rows(rows: seq<seq<string>>) | Meta(meta: Metadata)

  /** `heading_level`: one level (headings, paragraphs) or a list of levels (captions). */
  datatype LevelField = Level(n: int) | Levels(ns: seq<int>)

  /** A chunk record; a None field is a key the chunk does not have. */
  datatype Chunk = Chunk(
    id: string,
    text: Value,
    page: Option<int>,
    headingLevel: Option<LevelField>,
    isType: Option<string>,
    pages: Option<seq<int>>,
    headingLevels: Option<seq<int>>)

  // ------------------------------------------------------------------------------------------
  // Splitting text by token count

  /** The characters a loop piece takes over from the tail the previous piece left behind. */
  function OverlapOf(prev: string, lim: Limits): string {
    if prev != "" then PySuffix(prev, lim.overlap) else ""
  }

  /** The token slices: `max` tokens at a time while more than `max` remain, then the rest. */
  function Slices(toks: seq<int>, max: Positive): (r: seq<seq<int>>)
    ensures r == [] <==> toks == []
    decreases |toks|
  {
    if |toks| > max then [toks[..max]] + Slices(toks[max..], max)
    else if toks != [] then [toks]
    else []
  }

  /** The pieces of the while loop and the remainder, given the tail of the previous piece. */
  function LoopPieces(toks: seq<int>, prev: string, c: Codec, lim: Limits): (r: seq<string>)
    ensures |r| == |Slices(toks, lim.max)|
    decreases |toks|
  {
    if |toks| > lim.max then
      var piece := OverlapOf(prev, lim) + c.decode(toks[..lim.max]);
      [piece] + LoopPieces(toks[lim.max..], PySuffix(piece, lim.max), c, lim)
    else if toks != [] then [c.decode(toks)]
    else []
  }

  lemma LoopStep(toks: seq<int>, prev: string, c: Codec, lim: Limits)
    requires |toks| > lim.max
    ensures var piece := OverlapOf(prev, lim) + c.decode(toks[..lim.max]);
            LoopPieces(toks, prev, c, lim) == [piece] + LoopPieces(toks[lim.max..], PySuffix(piece, lim.max), c, lim)
  {
  }

  lemma LoopEnd(toks: seq<int>, prev: string, c: Codec, lim: Limits)
    requires |toks| <= lim.max
    ensures LoopPieces(toks, prev, c, lim) == if toks != [] then [c.decode(toks)] else []
  {
  }

  /** The last two parts become one. */
  function MergeLast<T>(xs: seq<seq<T>>): (r: seq<seq<T>>)
    requires |xs| > 1
    ensures |r| == |xs| - 1 && Flatten(r) == Flatten(xs)
  {
    var n := |xs|;
    var r := xs[..n - 2] + [xs[n - 2] + xs[n - 1]];
    FlattenSnoc(xs[..n - 2], xs[n - 2] + xs[n - 1]);
    FlattenSnoc(xs[..n - 2], xs[n - 2]);
    assert xs[..n - 1] == xs[..n - 2] + [xs[n - 2]];
    FlattenSnoc(xs[..n - 1], xs[n - 1]);
    assert xs == xs[..n - 1] + [xs[n - 1]];
    r
  }

  /** A last piece shorter than `min` characters is appended to the one before it. */
  function MergeTail(pieces: seq<string>, min: int): seq<string> {
    if |pieces| > 1 && |pieces[|pieces| - 1]| < min then MergeLast(pieces) else pieces
  }

  /** `_split_text_by_length`: `chunks[-1]` fails on an empty piece list. */
  function SplitText(text: string, c: Codec, lim: Limits): Result<seq<string>> {
    var pieces := LoopPieces(c.encode(text), "", c, lim);
    if pieces == [] then Err(IndexError) else Ok(MergeTail(pieces, lim.min))
  }

  lemma {:induction false} SlicesFlatten(toks: seq<int>, max: Positive)
    ensures Flatten(Slices(toks, max)) == toks
    decreases |toks|
  {
    if |toks| > max {
      SlicesFlatten(toks[max..], max);
      FlattenCons(toks[..max], Slices(toks[max..], max));
      assert toks[..max] + toks[max..] == toks;
    } else if toks != [] {
      FlattenSnoc([], toks);
      assert [] + [toks] == [toks];
    }
  }

  lemma {:induction false} SlicesSizes(toks: seq<int>, max: Positive)
    ensures var r := Slices(toks, max);
            (forall k :: 0 <= k < |r| - 1 ==> |r[k]| == max)
            && (r != [] ==> 0 < |r[|r| - 1]| <= max)
    decreases |toks|
  {
    if |toks| > max {
      SlicesSizes(toks[max..], max);
      var r := Slices(toks, max);
      assert r[1..] == Slices(toks[max..], max);
    }
  }

  lemma {:induction false} SlicesCount(toks: seq<int>, max: Positive)
    ensures var n := |Slices(toks, max)|;
            (toks != [] ==> (n - 1) * max < |toks|) && |toks| <= n * max
    decreases |toks|
  {
    if |toks| > max {
      var m := |Slices(toks[max..], max)|;
      SlicesCount(toks[max..], max);
      assert (m + 1) * max == m * max + max;
    }
  }

  /**
   * The token slices partition the tokens in order: all but the last hold exactly `max`
   * tokens, the last holds between 1 and `max`, and there are ceil(n / max) of them.
   */
  lemma {:induction false} SlicesPartition(toks: seq<int>, max: Positive)
    ensures var r := Slices(toks, max);
            Flatten(r) == toks
            && (forall k :: 0 <= k < |r| - 1 ==> |r[k]| == max)
            && (r != [] ==> 0 < |r[|r| - 1]| <= max)
            && (toks != [] ==> (|r| - 1) * max < |toks|) && |toks| <= |r| * max
  {
    SlicesFlatten(toks, max);
    SlicesSizes(toks, max);
    SlicesCount(toks, max);
  }

  /** The overlap prefix of piece `k`: none for the last piece (the remainder). */
  function PrefixAt(pieces: seq<string>, prev: string, k: nat, lim: Limits): string
    requires k < |pieces|
  {
    if k == |pieces| - 1 then ""
    else OverlapOf(if k == 0 then prev else PySuffix(pieces[k - 1], lim.max), lim)
  }

  /**
   * Piece `k` decodes token slice `k`; a loop piece is prefixed with the last `overlap`
   * characters of the last `max` characters of the piece before it (or of `prev` for the
   * first), the remainder gets no prefix.
   */
  lemma {:induction false} PieceAt(toks: seq<int>, prev: string, c: Codec, lim: Limits, k: nat)
    requires k < |LoopPieces(toks, prev, c, lim)|
    ensures var ps := LoopPieces(toks, prev, c, lim);
            ps[k] == PrefixAt(ps, prev, k, lim) + c.decode(Slices(toks, lim.max)[k])
    decreases |toks|
  {
    var ps := LoopPieces(toks, prev, c, lim);
    if |toks| > lim.max {
      var piece := OverlapOf(prev, lim) + c.decode(toks[..lim.max]);
      var rest := LoopPieces(toks[lim.max..], PySuffix(piece, lim.max), c, lim);
      assert ps == [piece] + rest;
      assert |rest| > 0 by {
        assert Slices(toks[lim.max..], lim.max) != [];
      }
      if k > 0 {
        PieceAt(toks[lim.max..], PySuffix(piece, lim.max), c, lim, k - 1);
        assert ps[k] == rest[k - 1];
        assert Slices(toks, lim.max)[k] == Slices(toks[lim.max..], lim.max)[k - 1];
        if k - 1 > 0 {
          assert rest[k - 2] == ps[k - 1];
        }
        assert PrefixAt(ps, prev, k, lim) == PrefixAt(rest, PySuffix(piece, lim.max), k - 1, lim);
      }
    }
  }

  /** An empty token list is the only input the split rejects. */
  lemma {:induction false} SplitTextFails(text: string, c: Codec, lim: Limits)
    ensures SplitText(text, c, lim).Err? <==> c.encode(text) == []
    ensures SplitText(text, c, lim).Err? ==> SplitText(text, c, lim).error == IndexError
  {
    assert LoopPieces(c.encode(text), "", c, lim) == [] <==> Slices(c.encode(text), lim.max) == [];
  }

  /** Text within the bound comes back as one piece: the decode of all its tokens. */
  lemma SplitTextShort(text: string, c: Codec, lim: Limits)
    requires 0 < |c.encode(text)| <= lim.max
    ensures SplitText(text, c, lim) == Ok([c.decode(c.encode(text))])
  {
  }

  /**
   * The merge-back: when there are several pieces and the last is shorter than `min`
   * characters, it is appended to the one before and dropped; otherwise nothing changes.
   * Either way the characters are the same, in the same order.
   */
  lemma MergeTailKeepsText(pieces: seq<string>, min: int)
    ensures var r := MergeTail(pieces, min);
            Flatten(r) == Flatten(pieces)
            && (|pieces| > 1 && |pieces[|pieces| - 1]| < min ==>
                  |r| == |pieces| - 1 && r[..|r| - 1] == pieces[..|pieces| - 2]
                  && r[|r| - 1] == pieces[|pieces| - 2] + pieces[|pieces| - 1])
            && (!(|pieces| > 1 && |pieces[|pieces| - 1]| < min) ==> r == pieces)
  {
  }

  /**
   * The split in full: it fails exactly on text without tokens; otherwise the pieces before the
   * merge-back are the decoded slices of `SlicesPartition`, each with its `PrefixAt` overlap,
   * and the result is those pieces after `MergeTail`.
   */
  lemma {:induction false} SplitTextPieces(text: string, c: Codec, lim: Limits, k: nat)
    requires c.encode(text) != []
    requires k < |Slices(c.encode(text), lim.max)|
    ensures var ps := LoopPieces(c.encode(text), "", c, lim);
            SplitText(text, c, lim) == Ok(MergeTail(ps, lim.min))
            && ps[k] == PrefixAt(ps, "", k, lim) + c.decode(Slices(c.encode(text), lim.max)[k])
            && (k == 0 ==> PrefixAt(ps, "", k, lim) == "")
  {
    SplitTextFails(text, c, lim);
    PieceAt(c.encode(text), "", c, lim, k);
  }
  // ------------------------------------------------------------------------------------------
  // Packing table rows by token count

  /** The token count of every row, given how a row is written out. */
  function RowTokens<R>(c: Codec, rowText: R -> string): R -> nat {
    (row: R) => |c.encode(rowText(row))|
  }

  function TokenSum<R>(rows: seq<R>, len: R -> nat): nat
    decreases |rows|
  {
    if rows == [] then 0 else TokenSum(rows[..|rows| - 1], len) + len(rows[|rows| - 1])
  }

  /** The loop state: the finished chunks, the open chunk and its token count. */
  datatype Packing<R> = Packing(chunks: seq<seq<R>>, current: seq<R>, length: int)

  /** One row: it opens a new chunk when it does not fit in the open one. */
  function PackStep<R>(p: Packing<R>, row: R, len: R -> nat, max: nat): Packing<R> {
    if p.length + len(row) > max then
      Packing(if |p.current| > 0 then p.chunks + [p.current] else p.chunks, [row], len(row))
    else Packing(p.chunks, p.current + [row], p.length + len(row))
  }

  function Pack<R>(rows: seq<R>, len: R -> nat, max: nat): Packing<R>
    decreases |rows|
  {
    if rows == [] then Packing([], [], 0)
    else PackStep(Pack(rows[..|rows| - 1], len, max), rows[|rows| - 1], len, max)
  }

  /** The open chunk is appended when it holds a row. */
  function Close<R>(p: Packing<R>): seq<seq<R>> {
    if |p.current| > 0 then p.chunks + [p.current] else p.chunks
  }

  function RowTexts<R>(rows: seq<R>, rowText: R -> string): seq<string> {
    MapSeq(rows, rowText)
  }

  /**
   * `_split_table_by_length` for any kind of row: a table whose text (rows joined by newlines)
   * is within the bound comes back whole; otherwise it is packed greedily and a last chunk of
   * fewer than `min` TOKENS (its rows joined by " | ") is merged onto the one before it.
   */
  function SplitRows<R>(rows: seq<R>, rowText: R -> string, c: Codec, lim: Limits): seq<seq<R>> {
    if |c.encode(Join("\n", RowTexts(rows, rowText)))| > lim.max then
      var cs := Close(Pack(rows, RowTokens(c, rowText), lim.max));
      if |cs| > 1 && |c.encode(Join(" | ", RowTexts(cs[|cs| - 1], rowText)))| < lim.min then MergeLast(cs)
      else cs
    else [rows]
  }

  /** A table row is written out as its cells joined by " | ". */
  function CellsText(): seq<string> -> string {
    (row: seq<string>) => Join(" | ", row)
  }

  /** The characters of a string as one-character strings. */
  function Chars(s: string): (r: seq<string>)
    ensures |r| == |s| && forall i :: 0 <= i < |s| ==> r[i] == [s[i]]
  {
    seq(|s|, i requires 0 <= i < |s| => [s[i]])
  }

  /** A pseudo-table "row" is one line, so its "cells" are its characters. */
  function LineText(): string -> string {
    (line: string) => Join(" | ", Chars(line))
  }

  /** A chunk that fits, or one that holds a single row. */
  predicate Bounded<R>(chunk: seq<R>, len: R -> nat, max: nat) {
    TokenSum(chunk, len) <= max || |chunk| == 1
  }

  ghost predicate PackOk<R>(p: Packing<R>, rows: seq<R>, len: R -> nat, max: nat) {
    Flatten(p.chunks) + p.current == rows
    && (forall k :: 0 <= k < |p.chunks| ==> |p.chunks[k]| > 0 && Bounded(p.chunks[k], len, max))
    && p.length == TokenSum(p.current, len)
    && Bounded(p.current, len, max)
    && (rows != [] ==> |p.current| > 0)
  }

  lemma {:induction false} TokenSumSnoc<R>(rows: seq<R>, row: R, len: R -> nat)
    ensures TokenSum(rows + [row], len) == TokenSum(rows, len) + len(row)
  {
    assert (rows + [row])[..|rows|] == rows;
  }

  lemma {:induction false} PackStepOk<R>(p: Packing<R>, rows: seq<R>, row: R, len: R -> nat, max: nat)
    requires PackOk(p, rows, len, max)
    ensures PackOk(PackStep(p, row, len, max), rows + [row], len, max)
  {
    TokenSumSnoc(p.current, row, len);
    if p.length + len(row) > max {
      assert TokenSum([row], len) == len(row) by {
        assert [row][..0] == [];
      }
      if |p.current| > 0 {
        FlattenSnoc(p.chunks, p.current);
      }
    }
  }

  lemma {:induction false} PackInvariant<R>(rows: seq<R>, len: R -> nat, max: nat)
    ensures PackOk(Pack(rows, len, max), rows, len, max)
    decreases |rows|
  {
    if rows != [] {
      var init := rows[..|rows| - 1];
      PackInvariant(init, len, max);
      PackStepOk(Pack(init, len, max), init, rows[|rows| - 1], len, max);
      assert init + [rows[|rows| - 1]] == rows;
    }
  }

  /** The closed packing: the chunks give back the rows in order, none is empty, all are bounded. */
  lemma {:induction false} ClosePacking<R>(rows: seq<R>, len: R -> nat, max: nat)
    ensures var cs := Close(Pack(rows, len, max));
            Flatten(cs) == rows
            && forall k :: 0 <= k < |cs| ==> |cs[k]| > 0 && Bounded(cs[k], len, max)
  {
    var p := Pack(rows, len, max);
    PackInvariant(rows, len, max);
    if |p.current| > 0 {
      FlattenSnoc(p.chunks, p.current);
    }
  }

  /**
   * The split of a table: a table within the bound is returned unchanged as the only chunk;
   * otherwise the chunks, concatenated, give back the rows in order, none is empty, and before the
   * merge-back a chunk exceeds the bound only when it is a single oversized row.
   */
  lemma {:induction false} SplitRowsSpec<R>(rows: seq<R>, rowText: R -> string, c: Codec, lim: Limits)
    ensures var r := SplitRows(rows, rowText, c, lim);
            Flatten(r) == rows
            && (|c.encode(Join("\n", RowTexts(rows, rowText)))| <= lim.max ==> r == [rows])
            && (|c.encode(Join("\n", RowTexts(rows, rowText)))| > lim.max ==>
                  forall k :: 0 <= k < |r| ==> |r[k]| > 0)
    ensures var cs := Close(Pack(rows, RowTokens(c, rowText), lim.max));
            forall k :: 0 <= k < |cs| ==> Bounded(cs[k], RowTokens(c, rowText), lim.max)
  {
    ClosePacking(rows, RowTokens(c, rowText), lim.max);
    if |c.encode(Join("\n", RowTexts(rows, rowText)))| > lim.max {
      SplitRowsOver(rows, rowText, c, lim);
    } else {
      FlattenSnoc([], rows);
      assert [] + [rows] == [rows];
    }
  }

  /** A table above the bound: the packed chunks, perhaps with the last two merged. */
  lemma {:induction false} SplitRowsOver<R>(rows: seq<R>, rowText: R -> string, c: Codec, lim: Limits)
    requires |c.encode(Join("\n", RowTexts(rows, rowText)))| > lim.max
    ensures var r := SplitRows(rows, rowText, c, lim);
            Flatten(r) == rows && forall k :: 0 <= k < |r| ==> |r[k]| > 0
  {
    var cs := Close(Pack(rows, RowTokens(c, rowText), lim.max));
    ClosePacking(rows, RowTokens(c, rowText), lim.max);
    if |cs| > 1 && |c.encode(Join(" | ", RowTexts(cs[|cs| - 1], rowText)))| < lim.min {
      MergeLastNonEmpty(cs);
    }
  }

  /** Merging the last two pieces keeps every piece non-empty. */
  lemma {:induction false} MergeLastNonEmpty<T>(xs: seq<seq<T>>)
    requires |xs| > 1 && forall k :: 0 <= k < |xs| ==> |xs[k]| > 0
    ensures forall k :: 0 <= k < |MergeLast(xs)| ==> |MergeLast(xs)[k]| > 0
  {
    var r := MergeLast(xs);
    assert forall k :: 0 <= k < |r| - 1 ==> r[k] == xs[k];
  }

  // ------------------------------------------------------------------------------------------
  // Id-stamped chunks

  /** A list of items expanded into chunks, item by item; the first failure is the result. */
  function Expand<T>(xs: seq<T>, f: (nat, T) -> Result<seq<Chunk>>): Result<seq<Chunk>>
    decreases |xs|
  {
    if xs == [] then Ok([])
    else
      var init := Expand(xs[..|xs| - 1], f);
      var last := f(|xs| - 1, xs[|xs| - 1]);
      if init.Err? then init
      else if last.Err? then Err(last.error)
      else Ok(init.value + last.value)
  }

  lemma {:induction false} ExpandSnoc<T>(xs: seq<T>, k: nat, f: (nat, T) -> Result<seq<Chunk>>)
    requires k < |xs|
    ensures var init := Expand(xs[..k], f);
            var last := f(k, xs[k]);
            Expand(xs[..k + 1], f)
              == if init.Err? then init else if last.Err? then Err(last.error) else Ok(init.value + last.value)
  {
    assert xs[..k + 1][..k] == xs[..k];
  }

  /** Once a prefix has failed, the whole list fails the same way. */
  lemma {:induction false} ExpandFailed<T>(xs: seq<T>, k: nat, f: (nat, T) -> Result<seq<Chunk>>)
    requires k <= |xs| && Expand(xs[..k], f).Err?
    ensures Expand(xs, f) == Expand(xs[..k], f)
    decreases |xs| - k
  {
    if k < |xs| {
      ExpandSnoc(xs, k, f);
      ExpandFailed(xs, k + 1, f);
    } else {
      assert xs[..k] == xs;
    }
  }

  /** The expansion fails exactly when some item does. */
  lemma {:induction false} ExpandFails<T>(xs: seq<T>, f: (nat, T) -> Result<seq<Chunk>>)
    ensures Expand(xs, f).Err? <==> exists i :: 0 <= i < |xs| && f(i, xs[i]).Err?
    decreases |xs|
  {
    if xs != [] {
      var init := xs[..|xs| - 1];
      ExpandFails(init, f);
      assert forall i :: 0 <= i < |init| ==> init[i] == xs[i];
    }
  }

  /** The chunks each item contributes, when none fails. */
  function Outputs<T>(xs: seq<T>, f: (nat, T) -> Result<seq<Chunk>>): (r: seq<seq<Chunk>>)
    requires forall i :: 0 <= i < |xs| ==> f(i, xs[i]).Ok?
    ensures |r| == |xs| && forall i :: 0 <= i < |xs| ==> r[i] == f(i, xs[i]).value
  {
    seq(|xs|, i requires 0 <= i < |xs| => f(i, xs[i]).value)
  }

  /** Each item contributes its own chunks, in item order. */
  lemma {:induction false} ExpandOrder<T>(xs: seq<T>, f: (nat, T) -> Result<seq<Chunk>>)
    requires Expand(xs, f).Ok?
    ensures forall i :: 0 <= i < |xs| ==> f(i, xs[i]).Ok?
    ensures Expand(xs, f).value == Flatten(Outputs(xs, f))
    decreases |xs|
  {
    ExpandFails(xs, f);
    if xs != [] {
      var n := |xs|;
      var init := xs[..n - 1];
      ExpandOrder(init, f);
      var parts := Outputs(xs, f);
      assert parts[..n - 1] == Outputs(init, f);
      FlattenSnoc(parts[..n - 1], parts[n - 1]);
      assert parts == parts[..n - 1] + [parts[n - 1]];
    }
  }
  function TextChunk(id: string, text: Value): Chunk {
    Chunk(id, text, None, None, None, None, None)
  }

  /** The text of a string chunk (and nothing for any other chunk). */
  function TextOf(ch: Chunk): string {
    if ch.text.Str? then ch.text.s else ""
  }

  function Texts(cs: seq<Chunk>): seq<string> {
    MapSeq(cs, TextOf)
  }

  /** The metadata copy without the four lists that get chunks of their own. */
  function WithoutLists(m: Metadata): (r: Metadata)
    ensures r.captions.None? && r.tables.None? && r.pseudoTables.None? && r.headings.None?
    ensures r.(captions := m.captions, tables := m.tables, pseudoTables := m.pseudoTables, headings := m.headings) == m
  {
    m.(captions := None, tables := None, pseudoTables := None, headings := None)
  }

  /** `_chunk_metadata`: the copy as one chunk, or its JSON text split into numbered chunks. */
  function MetadataChunks(m: Metadata, title: string, c: Codec, lim: Limits): seq<Chunk> {
    var copy := WithoutLists(m);
    var json := c.dumpsMetadata(copy);
    if |c.encode(json)| > lim.max then
      var r := SplitText(json, c, lim);
      if r.Err? then [] else MetadataPieces(title, r.value)
    else [TextChunk(title + "_metadata", Meta(copy))]
  }

  /** The pieces of the metadata's JSON text, numbered from 0. */
  function MetadataPieces(title: string, ps: seq<string>): (r: seq<Chunk>)
    ensures |r| == |ps|
    ensures forall i :: 0 <= i < |ps| ==> r[i] == TextChunk(title + "_metadata_chunk_" + NatToString(i), Str(ps[i]))
  {
    Numbered(ps, MetadataPiece(title))
  }

  function MetadataPiece(title: string): (nat, string) -> Chunk {
    (i: nat, piece: string) => TextChunk(title + "_metadata_chunk_" + NatToString(i), Str(piece))
  }

  lemma {:induction false} MetadataPiecesSnoc(title: string, ps: seq<string>, k: nat)
    requires k < |ps|
    ensures MetadataPieces(title, ps[..k + 1]) == MetadataPieces(title, ps[..k]) + [MetadataPieces(title, ps)[k]]
  {
    NumberedSnoc(ps, k, MetadataPiece(title));
  }

  /** The loop of `_chunk_metadata` over the split JSON text. */
  method NumberMetadataPieces(title: string, pieces: seq<string>) returns (chunks: seq<Chunk>)
    ensures chunks == MetadataPieces(title, pieces)
  {
    chunks := [];
    for i := 0 to |pieces|
      invariant chunks == MetadataPieces(title, pieces[..i])
    {
      MetadataPiecesSnoc(title, pieces, i);
      chunks := chunks + [TextChunk(title + "_metadata_chunk_" + NatToString(i), Str(pieces[i]))];
    }
    assert pieces[..|pieces|] == pieces;
  }

  lemma TextsOfMetadataPieces(title: string, ps: seq<string>)
    ensures Texts(MetadataPieces(title, ps)) == ps
  {
  }

  /**
   * Metadata within the bound is one chunk `{title}_metadata` holding the copy without the four
   * lists; longer metadata becomes chunks `{title}_metadata_chunk_i`, numbered from 0, whose texts
   * together are the characters of all loop pieces of its JSON text.
   */
  lemma {:induction false} MetadataChunksSpec(m: Metadata, title: string, c: Codec, lim: Limits)
    ensures var r := MetadataChunks(m, title, c, lim);
            var json := c.dumpsMetadata(WithoutLists(m));
            |r| >= 1
            && (|c.encode(json)| <= lim.max ==> r == [TextChunk(title + "_metadata", Meta(WithoutLists(m)))])
            && (|c.encode(json)| > lim.max ==>
                  (forall i :: 0 <= i < |r| ==> r[i].id == title + "_metadata_chunk_" + NatToString(i) && r[i].text.Str?)
                  && Flatten(Texts(r)) == Flatten(LoopPieces(c.encode(json), "", c, lim)))
  {
    var json := c.dumpsMetadata(WithoutLists(m));
    if |c.encode(json)| > lim.max {
      MetadataChunksLong(m, title, c, lim);
    }
  }

  /** Metadata too long for one chunk: numbered pieces, at least one, holding the loop's text. */
  lemma {:induction false} MetadataChunksLong(m: Metadata, title: string, c: Codec, lim: Limits)
    requires |c.encode(c.dumpsMetadata(WithoutLists(m)))| > lim.max
    ensures var r := MetadataChunks(m, title, c, lim);
            var json := c.dumpsMetadata(WithoutLists(m));
            |r| >= 1
            && (forall i :: 0 <= i < |r| ==> r[i].id == title + "_metadata_chunk_" + NatToString(i) && r[i].text.Str?)
            && Flatten(Texts(r)) == Flatten(LoopPieces(c.encode(json), "", c, lim))
  {
    var json := c.dumpsMetadata(WithoutLists(m));
    SplitTextFails(json, c, lim);
    var ps := SplitText(json, c, lim).value;
    assert MetadataChunks(m, title, c, lim) == MetadataPieces(title, ps);
    MergeTailKeepsText(LoopPieces(c.encode(json), "", c, lim), lim.min);
    TextsOfMetadataPieces(title, ps);
  }

  function HeadingId(title: string, idx: nat, h: HeadingEntry): string {
    title + "_heading_" + NatToString(idx) + "_level_" + IntToString(h.level) + "_page_" + IntToString(h.page)
  }

  function HeadingPiece(title: string, idx: nat, h: HeadingEntry): string -> Chunk {
    (piece: string) => Chunk(HeadingId(title, idx, h), Str(piece), Some(h.page), Some(Level(h.level)), None, None, None)
  }

  /** One heading of `_chunk_headings`: its text split, every piece under the heading's id. */
  function HeadingChunks(title: string, c: Codec, lim: Limits, idx: nat, h: HeadingEntry): Result<seq<Chunk>> {
    var r := SplitText(h.text, c, lim);
    if r.Err? then Err(r.error) else Ok(MapSeq(r.value, HeadingPiece(title, idx, h)))
  }

  function HeadingItem(title: string, c: Codec, lim: Limits): (nat, HeadingEntry) -> Result<seq<Chunk>> {
    (idx: nat, h: HeadingEntry) => HeadingChunks(title, c, lim, idx, h)
  }

  function CaptionId(title: string, idx: nat, cap: CaptionEntry): string {
    title + "_captions_" + NatToString(idx) + "_page_" + IntToString(cap.page)
  }

  function CaptionPiece(title: string, idx: nat, cap: CaptionEntry): string -> Chunk {
    (piece: string) => Chunk(CaptionId(title, idx, cap), Str(piece), Some(cap.page), Some(Levels(cap.headingLevels)), None, None, None)
  }

  /** One caption of `_chunk_captions`. */
  function CaptionChunks(title: string, c: Codec, lim: Limits, idx: nat, cap: CaptionEntry): Result<seq<Chunk>> {
    var r := SplitText(cap.text, c, lim);
    if r.Err? then Err(r.error) else Ok(MapSeq(r.value, CaptionPiece(title, idx, cap)))
  }

  function CaptionItem(title: string, c: Codec, lim: Limits): (nat, CaptionEntry) -> Result<seq<Chunk>> {
    (idx: nat, cap: CaptionEntry) => CaptionChunks(title, c, lim, idx, cap)
  }

  /** The text chunks of a split share one id, and their texts are the split's pieces. */
  lemma PiecesShareId(ps: seq<string>, mk: string -> Chunk, id: string)
    requires forall piece :: mk(piece).id == id && mk(piece).text == Str(piece)
    ensures forall ch :: ch in MapSeq(ps, mk) ==> ch.id == id
    ensures Texts(MapSeq(ps, mk)) == ps
  {
  }

  /**
   * A heading fails exactly when its text has no tokens; otherwise all its chunks carry the
   * heading's id, page and level, their texts are the split pieces, and a heading within the
   * bound gives exactly one chunk, the decode of its tokens.
   */
  lemma {:induction false} HeadingChunksSpec(title: string, c: Codec, lim: Limits, idx: nat, h: HeadingEntry)
    ensures var r := HeadingChunks(title, c, lim, idx, h);
            (r.Err? <==> c.encode(h.text) == [])
            && (r.Ok? ==>
                  |r.value| >= 1
                  && (forall ch :: ch in r.value ==>
                        (ch.id == HeadingId(title, idx, h) && ch.page == Some(h.page) && ch.headingLevel == Some(Level(h.level))))
                  && Texts(r.value) == SplitText(h.text, c, lim).value)
            && (0 < |c.encode(h.text)| <= lim.max ==>
                  r == Ok([Chunk(HeadingId(title, idx, h), Str(c.decode(c.encode(h.text))), Some(h.page), Some(Level(h.level)), None, None, None)]))
  {
    SplitTextFails(h.text, c, lim);
    if c.encode(h.text) != [] {
      PiecesShareId(SplitText(h.text, c, lim).value, HeadingPiece(title, idx, h), HeadingId(title, idx, h));
    }
    if 0 < |c.encode(h.text)| <= lim.max {
      SplitTextShort(h.text, c, lim);
      var piece := c.decode(c.encode(h.text));
      assert MapSeq([piece], HeadingPiece(title, idx, h)) == [HeadingPiece(title, idx, h)(piece)];
    }
  }

  /** The caption counterpart of `HeadingChunksSpec`, with the caption's list of levels. */
  lemma {:induction false} CaptionChunksSpec(title: string, c: Codec, lim: Limits, idx: nat, cap: CaptionEntry)
    ensures var r := CaptionChunks(title, c, lim, idx, cap);
            (r.Err? <==> c.encode(cap.text) == [])
            && (r.Ok? ==>
                  |r.value| >= 1
                  && (forall ch :: ch in r.value ==>
                        (ch.id == CaptionId(title, idx, cap) && ch.page == Some(cap.page)
                         && ch.headingLevel == Some(Levels(cap.headingLevels))))
                  && Texts(r.value) == SplitText(cap.text, c, lim).value)
            && (0 < |c.encode(cap.text)| <= lim.max ==>
                  r == Ok([Chunk(CaptionId(title, idx, cap), Str(c.decode(c.encode(cap.text))), Some(cap.page), Some(Levels(cap.headingLevels)), None, None, None)]))
  {
    SplitTextFails(cap.text, c, lim);
    if c.encode(cap.text) != [] {
      PiecesShareId(SplitText(cap.text, c, lim).value, CaptionPiece(title, idx, cap), CaptionId(title, idx, cap));
    }
    if 0 < |c.encode(cap.text)| <= lim.max {
      SplitTextShort(cap.text, c, lim);
      var piece := c.decode(c.encode(cap.text));
      assert MapSeq([piece], CaptionPiece(title, idx, cap)) == [CaptionPiece(title, idx, cap)(piece)];
    }
  }

  /** The heading list fails exactly when some heading's text has no tokens. */
  lemma {:induction false} HeadingsFail(hs: seq<HeadingEntry>, title: string, c: Codec, lim: Limits)
    ensures Expand(hs, HeadingItem(title, c, lim)).Err? <==> exists i :: 0 <= i < |hs| && c.encode(hs[i].text) == []
  {
    ExpandFails(hs, HeadingItem(title, c, lim));
    forall i | 0 <= i < |hs|
      ensures HeadingItem(title, c, lim)(i, hs[i]).Err? <==> c.encode(hs[i].text) == []
    {
      SplitTextFails(hs[i].text, c, lim);
    }
  }

  /** The caption list fails exactly when some caption's text has no tokens. */
  lemma {:induction false} CaptionsFail(cs: seq<CaptionEntry>, title: string, c: Codec, lim: Limits)
    ensures Expand(cs, CaptionItem(title, c, lim)).Err? <==> exists i :: 0 <= i < |cs| && c.encode(cs[i].text) == []
  {
    ExpandFails(cs, CaptionItem(title, c, lim));
    forall i | 0 <= i < |cs|
      ensures CaptionItem(title, c, lim)(i, cs[i]).Err? <==> c.encode(cs[i].text) == []
    {
      SplitTextFails(cs[i].text, c, lim);
    }
  }

  function TableId(title: string, idx: nat, t: TableEntry): string {
    title + "_table_" + NatToString(idx) + "_page_" + IntToString(t.page) + "_structured"
  }

  /** The parts of a split table, numbered from 1. */
  function TableParts(title: string, idx: nat, t: TableEntry, parts: seq<seq<seq<string>>>): (r: seq<Chunk>)
    ensures |r| == |parts|
    ensures forall j :: 0 <= j < |parts| ==>
              r[j] == Chunk(TableId(title, idx, t) + "_" + NatToString(j + 1), Rows(parts[j]), Some(t.page), None, None, None, None)
  {
    Numbered(parts, TablePart(title, idx, t))
  }

  function TablePart(title: string, idx: nat, t: TableEntry): (nat, seq<seq<string>>) -> Chunk {
    (j: nat, part: seq<seq<string>>) => Chunk(TableId(title, idx, t) + "_" + NatToString(j + 1), Rows(part), Some(t.page), None, None, None, None)
  }

  /** One table of `_chunk_tables`: whole when its JSON text fits, else one chunk per part. */
  function TableChunks(title: string, c: Codec, lim: Limits, idx: nat, t: TableEntry): Result<seq<Chunk>> {
    if |c.encode(c.dumpsTable(t.table))| > lim.max then
      Ok(TableParts(title, idx, t, SplitRows(t.table, CellsText(), c, lim)))
    else Ok([Chunk(TableId(title, idx, t), Rows(t.table), Some(t.page), None, None, None, None)])
  }

  function TableItem(title: string, c: Codec, lim: Limits): (nat, TableEntry) -> Result<seq<Chunk>> {
    (idx: nat, t: TableEntry) => TableChunks(title, c, lim, idx, t)
  }

  /** The rows a list of table chunks holds, chunk by chunk. */
  function RowsOf(cs: seq<Chunk>): seq<seq<seq<string>>> {
    MapSeq(cs, (ch: Chunk) => if ch.text.Rows? then ch.text.rows else [])
  }

  lemma {:induction false} TablePartsSnoc(title: string, idx: nat, t: TableEntry, parts: seq<seq<seq<string>>>, k: nat)
    requires k < |parts|
    ensures TableParts(title, idx, t, parts[..k + 1]) == TableParts(title, idx, t, parts[..k]) + [TableParts(title, idx, t, parts)[k]]
  {
    NumberedSnoc(parts, k, TablePart(title, idx, t));
  }

  lemma RowsOfParts(title: string, idx: nat, t: TableEntry, parts: seq<seq<seq<string>>>)
    ensures RowsOf(TableParts(title, idx, t, parts)) == parts
  {
  }

  lemma {:induction false} FlattenOne<T>(xs: seq<T>)
    ensures Flatten([xs]) == xs
  {
    FlattenSnoc([], xs);
    assert [] + [xs] == [xs];
  }

  /**
   * A table never fails; a table whose JSON text fits is one chunk `..._structured` with all its
   * rows; a longer one gives chunks `..._structured_1`, `_2`, ... whose rows, concatenated, are
   * the table's rows in order.
   */
  lemma {:induction false} TableChunksSpec(title: string, c: Codec, lim: Limits, idx: nat, t: TableEntry)
    ensures var r := TableChunks(title, c, lim, idx, t);
            r.Ok? && Flatten(RowsOf(r.value)) == t.table
            && (forall ch :: ch in r.value ==> ch.page == Some(t.page))
            && (|c.encode(c.dumpsTable(t.table))| <= lim.max ==>
                  r.value == [Chunk(TableId(title, idx, t), Rows(t.table), Some(t.page), None, None, None, None)])
            && (|c.encode(c.dumpsTable(t.table))| > lim.max ==>
                  forall j :: 0 <= j < |r.value| ==> r.value[j].id == TableId(title, idx, t) + "_" + NatToString(j + 1))
  {
    if |c.encode(c.dumpsTable(t.table))| > lim.max {
      TableChunksLong(title, c, lim, idx, t);
    } else {
      var ch := Chunk(TableId(title, idx, t), Rows(t.table), Some(t.page), None, None, None, None);
      assert RowsOf([ch]) == [t.table];
      FlattenOne(t.table);
    }
  }

  /** A table above the bound: one numbered chunk per row group, the groups holding all rows. */
  lemma {:induction false} TableChunksLong(title: string, c: Codec, lim: Limits, idx: nat, t: TableEntry)
    requires |c.encode(c.dumpsTable(t.table))| > lim.max
    ensures var r := TableChunks(title, c, lim, idx, t);
            r.Ok? && Flatten(RowsOf(r.value)) == t.table
            && (forall ch :: ch in r.value ==> ch.page == Some(t.page))
            && forall j :: 0 <= j < |r.value| ==> r.value[j].id == TableId(title, idx, t) + "_" + NatToString(j + 1)
  {
    var parts := SplitRows(t.table, CellsText(), c, lim);
    assert TableChunks(title, c, lim, idx, t) == Ok(TableParts(title, idx, t, parts));
    SplitRowsSpec(t.table, CellsText(), c, lim);
    RowsOfParts(title, idx, t, parts);
    TablePartsPage(title, idx, t, parts);
  }

  lemma {:induction false} TablePartsPage(title: string, idx: nat, t: TableEntry, parts: seq<seq<seq<string>>>)
    ensures forall ch :: ch in TableParts(title, idx, t, parts) ==> ch.page == Some(t.page)
  {
    var r := TableParts(title, idx, t, parts);
    forall ch | ch in r
      ensures ch.page == Some(t.page)
    {
      var j :| 0 <= j < |r| && r[j] == ch;
    }
  }

  function PseudoId(title: string, idx: nat, first: int): string {
    title + "_pseudo_table_" + NatToString(idx) + "_page_" + IntToString(first) + "_structured"
  }

  function PseudoChunk(id: string, lines: seq<string>, pt: PseudoTableEntry): Chunk {
    Chunk(id, Lines(lines), None, None, None, Some(pt.pages), Some(pt.headingLevels))
  }

  /** The parts of a split pseudo-table, numbered from 1. */
  function PseudoParts(title: string, idx: nat, first: int, pt: PseudoTableEntry, parts: seq<seq<string>>): (r: seq<Chunk>)
    ensures |r| == |parts|
    ensures forall j :: 0 <= j < |parts| ==> r[j] == PseudoChunk(PseudoId(title, idx, first) + "_" + NatToString(j + 1), parts[j], pt)
  {
    Numbered(parts, PseudoPart(title, idx, first, pt))
  }

  function PseudoPart(title: string, idx: nat, first: int, pt: PseudoTableEntry): (nat, seq<string>) -> Chunk {
    (j: nat, part: seq<string>) => PseudoChunk(PseudoId(title, idx, first) + "_" + NatToString(j + 1), part, pt)
  }

  /**
   * One pseudo-table of `_chunk_pseudo_tables`; its id needs `pages[0]`, which fails on a
   * record without pages as soon as a chunk is built.
   */
  function PseudoChunks(title: string, c: Codec, lim: Limits, idx: nat, pt: PseudoTableEntry): Result<seq<Chunk>> {
    if |c.encode(c.dumpsLines(pt.contents))| > lim.max then
      var parts := SplitRows(pt.contents, LineText(), c, lim);
      if parts == [] then Ok([])
      else if pt.pages == [] then Err(IndexError)
      else Ok(PseudoParts(title, idx, pt.pages[0], pt, parts))
    else if pt.pages == [] then Err(IndexError)
    else Ok([PseudoChunk(PseudoId(title, idx, pt.pages[0]), pt.contents, pt)])
  }

  function PseudoItem(title: string, c: Codec, lim: Limits): (nat, PseudoTableEntry) -> Result<seq<Chunk>> {
    (idx: nat, pt: PseudoTableEntry) => PseudoChunks(title, c, lim, idx, pt)
  }

  function LinesOf(cs: seq<Chunk>): seq<seq<string>> {
    MapSeq(cs, (ch: Chunk) => if ch.text.Lines? then ch.text.lines else [])
  }

  /**
   * The loop over the row groups of a pseudo-table that is too long: one chunk per group, the
   * first group raising an IndexError when the pseudo-table has no page.
   */
  method PseudoTableParts(title: string, idx: nat, pseudoTable: PseudoTableEntry, splitTexts: seq<seq<string>>)
      returns (r: Result<seq<Chunk>>)
    ensures r == if splitTexts == [] then Ok([])
                 else if pseudoTable.pages == [] then Err(IndexError)
                 else Ok(PseudoParts(title, idx, pseudoTable.pages[0], pseudoTable, splitTexts))
  {
    var chunks: seq<Chunk> := [];
    for splitIdx := 0 to |splitTexts|
      invariant splitIdx > 0 ==> pseudoTable.pages != []
      invariant splitIdx > 0 ==> chunks == PseudoParts(title, idx, pseudoTable.pages[0], pseudoTable, splitTexts[..splitIdx])
      invariant splitIdx == 0 ==> chunks == []
    {
      if pseudoTable.pages == [] {
        return Err(IndexError);
      }
      var first := pseudoTable.pages[0];
      PseudoPartsSnoc(title, idx, first, pseudoTable, splitTexts, splitIdx);
      chunks := chunks + [PseudoChunk(PseudoId(title, idx, first) + "_" + NatToString(splitIdx + 1), splitTexts[splitIdx], pseudoTable)];
    }
    assert splitTexts[..|splitTexts|] == splitTexts;
    return Ok(chunks);
  }

  lemma {:induction false} PseudoPartsSnoc(title: string, idx: nat, first: int, pt: PseudoTableEntry, parts: seq<seq<string>>, k: nat)
    requires k < |parts|
    ensures PseudoParts(title, idx, first, pt, parts[..k + 1])
            == PseudoParts(title, idx, first, pt, parts[..k]) + [PseudoParts(title, idx, first, pt, parts)[k]]
  {
    NumberedSnoc(parts, k, PseudoPart(title, idx, first, pt));
  }

  lemma LinesOfParts(title: string, idx: nat, first: int, pt: PseudoTableEntry, parts: seq<seq<string>>)
    ensures LinesOf(PseudoParts(title, idx, first, pt, parts)) == parts
  {
  }

  /**
   * A pseudo-table with pages never fails, and one with lines but no pages always does;
   * otherwise its chunks, concatenated, hold its lines in order, and all carry its pages and levels.
   */
  lemma {:induction false} PseudoChunksSpec(title: string, c: Codec, lim: Limits, idx: nat, pt: PseudoTableEntry)
    ensures var r := PseudoChunks(title, c, lim, idx, pt);
            (pt.pages != [] ==> r.Ok?)
            && (pt.pages == [] && pt.contents != [] ==> r == Err(IndexError))
            && (r.Ok? ==>
                  (Flatten(LinesOf(r.value)) == pt.contents
                   && forall ch :: ch in r.value ==> ch.pages == Some(pt.pages) && ch.headingLevels == Some(pt.headingLevels)))
  {
    if |c.encode(c.dumpsLines(pt.contents))| > lim.max {
      var parts := SplitRows(pt.contents, LineText(), c, lim);
      SplitRowsSpec(pt.contents, LineText(), c, lim);
      if parts != [] && pt.pages != [] {
        PseudoChunksLong(title, c, lim, idx, pt);
      }
    } else if pt.pages != [] {
      var ch := PseudoChunk(PseudoId(title, idx, pt.pages[0]), pt.contents, pt);
      assert LinesOf([ch]) == [pt.contents];
      FlattenOne(pt.contents);
    }
  }

  /** A pseudo-table above the bound that has pages: one chunk per line group, holding all lines. */
  lemma {:induction false} PseudoChunksLong(title: string, c: Codec, lim: Limits, idx: nat, pt: PseudoTableEntry)
    requires |c.encode(c.dumpsLines(pt.contents))| > lim.max && pt.pages != []
    requires SplitRows(pt.contents, LineText(), c, lim) != []
    ensures var r := PseudoChunks(title, c, lim, idx, pt);
            r.Ok? && Flatten(LinesOf(r.value)) == pt.contents
            && forall ch :: ch in r.value ==> ch.pages == Some(pt.pages) && ch.headingLevels == Some(pt.headingLevels)
  {
    var parts := SplitRows(pt.contents, LineText(), c, lim);
    assert PseudoChunks(title, c, lim, idx, pt) == Ok(PseudoParts(title, idx, pt.pages[0], pt, parts));
    SplitRowsSpec(pt.contents, LineText(), c, lim);
    LinesOfParts(title, idx, pt.pages[0], pt, parts);
    var r := PseudoParts(title, idx, pt.pages[0], pt, parts);
    forall ch | ch in r
      ensures ch.pages == Some(pt.pages) && ch.headingLevels == Some(pt.headingLevels)
    {
      var j :| 0 <= j < |r| && r[j] == ch;
    }
  }

  /** `list.index(x)`: the first position holding a value equal to `x`. */
  function FirstIndex<T(==)>(xs: seq<T>, x: T): (i: nat)
    requires x in xs
    ensures i < |xs| && xs[i] == x && forall j :: 0 <= j < i ==> xs[j] != x
  {
    if xs[0] == x then 0 else 1 + FirstIndex(xs[1..], x)
  }

  /** The paragraph id numbers a paragraph by the first equal paragraph of its page, from 1. */
  function ParaId(title: string, page: Page, j: nat): string
    requires j < |page.paragraphs|
  {
    title + "_page_" + IntToString(page.number) + "_paragraph_"
      + NatToString(FirstIndex(page.paragraphs, page.paragraphs[j]) + 1)
  }

  function ParaPiece(title: string, page: Page, j: nat): string -> Chunk
    requires j < |page.paragraphs|
  {
    var p := page.paragraphs[j];
    var id := ParaId(title, page, j);
    (piece: string) => Chunk(id, Str(piece), Some(page.number), Some(Level(p.headingLevel)), Some(TypeName(p.isType)), None, None)
  }

  /** One paragraph: split only when it exceeds the bound, otherwise its text unchanged. */
  function ParaChunks(title: string, page: Page, j: nat, c: Codec, lim: Limits): seq<Chunk>
    requires j < |page.paragraphs|
  {
    var p := page.paragraphs[j];
    if |c.encode(p.text)| > lim.max then
      var r := SplitText(p.text, c, lim);
      if r.Err? then [] else MapSeq(r.value, ParaPiece(title, page, j))
    else [ParaPiece(title, page, j)(p.text)]
  }

  function PageChunks(title: string, page: Page, n: nat, c: Codec, lim: Limits): seq<Chunk>
    requires n <= |page.paragraphs|
    decreases n
  {
    if n == 0 then [] else PageChunks(title, page, n - 1, c, lim) + ParaChunks(title, page, n - 1, c, lim)
  }

  function PagesChunks(title: string, pages: seq<Page>, c: Codec, lim: Limits): seq<Chunk>
    decreases |pages|
  {
    if pages == [] then []
    else
      var page := pages[|pages| - 1];
      PagesChunks(title, pages[..|pages| - 1], c, lim) + PageChunks(title, page, |page.paragraphs|, c, lim)
  }

  /**
   * A paragraph within the bound becomes exactly one chunk holding its text; a longer one
   * becomes its split pieces. Either way every chunk carries the paragraph's id, page, level and type.
   */
  lemma {:induction false} ParaChunksSpec(title: string, page: Page, j: nat, c: Codec, lim: Limits)
    requires j < |page.paragraphs|
    ensures var p := page.paragraphs[j];
            var r := ParaChunks(title, page, j, c, lim);
            |r| >= 1
            && (forall ch :: ch in r ==>
                  (ch.id == ParaId(title, page, j) && ch.page == Some(page.number)
                   && ch.headingLevel == Some(Level(p.headingLevel)) && ch.isType == Some(TypeName(p.isType))))
            && (|c.encode(p.text)| <= lim.max ==> |r| == 1 && r[0].text == Str(p.text))
            && (|c.encode(p.text)| > lim.max ==> Texts(r) == SplitText(p.text, c, lim).value)
  {
    var p := page.paragraphs[j];
    if |c.encode(p.text)| > lim.max {
      SplitTextFails(p.text, c, lim);
      PiecesShareId(SplitText(p.text, c, lim).value, ParaPiece(title, page, j), ParaId(title, page, j));
    }
  }

  /** Two equal paragraphs of one page get one id (`list.index` finds the first). */
  lemma EqualParagraphsShareId(title: string, page: Page, i: nat, j: nat)
    requires i < |page.paragraphs| && j < |page.paragraphs| && page.paragraphs[i] == page.paragraphs[j]
    ensures ParaId(title, page, i) == ParaId(title, page, j)
  {
  }

  /**
   * The title used in ids: `metadata.get("document_title", "Unknown_Title").replace(" ", "_")`.
   * The key is always there, so its default is never taken; a null title raises at `.replace`.
   */
  function DocTitle(m: Metadata): (r: Result<string>)
    ensures r.Err? <==> m.documentTitle.None?
    ensures r.Err? ==> r.error == AttributeError("replace")
    ensures r.Ok? ==> ' ' !in r.value && |r.value| == |m.documentTitle.value|
                      && forall i :: 0 <= i < |r.value| && m.documentTitle.value[i] != ' ' ==> r.value[i] == m.documentTitle.value[i]
  {
    if m.documentTitle.None? then Err(AttributeError("replace"))
    else
      var t := ReplaceChar(m.documentTitle.value, ' ', '_');
      assert forall i :: 0 <= i < |t| ==> t[i] != ' ';
      Ok(t)
  }

  /**
   * `chunk_document`: the title first, then metadata, headings, tables, pseudo-tables, captions
   * and the paragraphs page by page; a missing list counts as empty. A null title, or the first
   * failing heading, pseudo-table or caption, makes it fail.
   */
  function DocumentChunks(doc: Document, c: Codec, lim: Limits): Result<seq<Chunk>> {
    var m := doc.metadata;
    var t := DocTitle(m);
    if t.Err? then Err(t.error)
    else
      var title := t.value;
      var heads := Expand(m.headings.GetOr([]), HeadingItem(title, c, lim));
      var tables := Expand(m.tables.GetOr([]), TableItem(title, c, lim));
      var pseudo := Expand(m.pseudoTables.GetOr([]), PseudoItem(title, c, lim));
      var caps := Expand(m.captions.GetOr([]), CaptionItem(title, c, lim));
      if heads.Err? then Err(heads.error)
      else if tables.Err? then Err(tables.error)
      else if pseudo.Err? then Err(pseudo.error)
      else if caps.Err? then Err(caps.error)
      else Ok(MetadataChunks(m, title, c, lim) + heads.value + tables.value + pseudo.value + caps.value
              + PagesChunks(title, doc.pages, c, lim))
  }

  /** The table list never makes the document fail. */
  lemma {:induction false} TablesNeverFail(ts: seq<TableEntry>, title: string, c: Codec, lim: Limits)
    ensures Expand(ts, TableItem(title, c, lim)).Ok?
  {
    ExpandFails(ts, TableItem(title, c, lim));
    forall i | 0 <= i < |ts|
      ensures TableItem(title, c, lim)(i, ts[i]).Ok?
    {
    }
  }

  /**
   * The document fails exactly when its title is null, or a heading or a caption has no tokens,
   * or a pseudo-table fails; a null title fails first, with AttributeError.
   */
  lemma {:induction false} DocumentChunksFail(doc: Document, c: Codec, lim: Limits)
    ensures var m := doc.metadata;
            var hs := m.headings.GetOr([]);
            var pts := m.pseudoTables.GetOr([]);
            var cs := m.captions.GetOr([]);
            DocumentChunks(doc, c, lim).Err? <==>
               m.documentTitle.None?
               || (exists i :: 0 <= i < |hs| && c.encode(hs[i].text) == [])
               || (exists i :: 0 <= i < |pts| && PseudoChunks(DocTitle(m).value, c, lim, i, pts[i]).Err?)
               || (exists i :: 0 <= i < |cs| && c.encode(cs[i].text) == [])
    ensures doc.metadata.documentTitle.None? ==> DocumentChunks(doc, c, lim) == Err(AttributeError("replace"))
  {
    var m := doc.metadata;
    if m.documentTitle.Some? {
      var title := DocTitle(m).value;
      HeadingsFail(m.headings.GetOr([]), title, c, lim);
      CaptionsFail(m.captions.GetOr([]), title, c, lim);
      ExpandFails(m.pseudoTables.GetOr([]), PseudoItem(title, c, lim));
      TablesNeverFail(m.tables.GetOr([]), title, c, lim);
    }
  }

  /** The chunks come in the fixed order of the lists, each list item by item, then the pages. */
  lemma {:induction false} DocumentChunksOrder(doc: Document, c: Codec, lim: Limits)
    requires DocumentChunks(doc, c, lim).Ok?
    ensures DocTitle(doc.metadata).Ok?
    ensures var m := doc.metadata;
            var title := DocTitle(m).value;
            var ts := m.tables.GetOr([]);
            var hs := m.headings.GetOr([]);
            var pts := m.pseudoTables.GetOr([]);
            var cs := m.captions.GetOr([]);
            (forall i :: 0 <= i < |hs| ==> HeadingItem(title, c, lim)(i, hs[i]).Ok?)
            && (forall i :: 0 <= i < |ts| ==> TableItem(title, c, lim)(i, ts[i]).Ok?)
            && (forall i :: 0 <= i < |pts| ==> PseudoItem(title, c, lim)(i, pts[i]).Ok?)
            && (forall i :: 0 <= i < |cs| ==> CaptionItem(title, c, lim)(i, cs[i]).Ok?)
            && DocumentChunks(doc, c, lim).value
                 == MetadataChunks(m, title, c, lim)
                    + Flatten(Outputs(hs, HeadingItem(title, c, lim)))
                    + Flatten(Outputs(ts, TableItem(title, c, lim)))
                    + Flatten(Outputs(pts, PseudoItem(title, c, lim)))
                    + Flatten(Outputs(cs, CaptionItem(title, c, lim)))
                    + PagesChunks(title, doc.pages, c, lim)
  {
    var m := doc.metadata;
    var title := DocTitle(m).value;
    ExpandOrder(m.headings.GetOr([]), HeadingItem(title, c, lim));
    ExpandOrder(m.tables.GetOr([]), TableItem(title, c, lim));
    ExpandOrder(m.pseudoTables.GetOr([]), PseudoItem(title, c, lim));
    ExpandOrder(m.captions.GetOr([]), CaptionItem(title, c, lim));
  }

  /**
   * The body of `_split_text_by_length` with the chunker's settings as `lim`: windows of
   * `lim.max` tokens, each after the first prefixed by the overlap of the one before, then the
   * rest; a short last piece is merged onto the one before it.
   */
  method SplitTextWith(text: string, codec: Codec, lim: Limits) returns (r: Result<seq<string>>)
    ensures r == SplitText(text, codec, lim)
  {
    var minChunkLength := lim.min;
    var chunks := WindowPieces(codec.encode(text), codec, lim);
    if |chunks| == 0 {
      return Err(IndexError);
    }
    ghost var pieces := chunks;
    if |chunks[|chunks| - 1]| < minChunkLength && |chunks| > 1 {
      MergeInPlace(pieces);
      var n := |chunks|;
      chunks := chunks[n - 2 := chunks[n - 2] + chunks[n - 1]];
      chunks := chunks[..n - 1];
    }
    return Ok(chunks);
  }

  /** The window loop of `_split_text_by_length`, with the rest as the last piece. */
  method WindowPieces(tokens: seq<int>, codec: Codec, lim: Limits) returns (chunks: seq<string>)
    ensures chunks == LoopPieces(tokens, "", codec, lim)
  {
    var maxChunkLength, overlapLength := lim.max, lim.overlap;
    var tokenizedText := tokens;
    chunks := [];
    var prevChunk := "";
    while |tokenizedText| > maxChunkLength
      invariant chunks + LoopPieces(tokenizedText, prevChunk, codec, lim) == LoopPieces(tokens, "", codec, lim)
      decreases |tokenizedText|
    {
      WindowStep(chunks, tokenizedText, prevChunk, codec, lim);
      var chunkPart := tokenizedText[..maxChunkLength];
      var chunkTextPart := codec.decode(chunkPart);
      OverlapPrefix(prevChunk, lim, chunkTextPart);
      if prevChunk != "" {
        chunkTextPart := PySuffix(prevChunk, overlapLength) + chunkTextPart;
      }
      chunks := chunks + [chunkTextPart];
      tokenizedText := tokenizedText[maxChunkLength..];
      prevChunk := PySuffix(chunkTextPart, maxChunkLength);
    }
    LoopEnd(tokenizedText, prevChunk, codec, lim);
    if |tokenizedText| > 0 {
      chunks := chunks + [codec.decode(tokenizedText)];
    }
  }

  /** One round of the window loop: the piece moves from the pieces still to come to the finished ones. */
  lemma {:induction false} WindowStep(chunks: seq<string>, toks: seq<int>, prev: string, c: Codec, lim: Limits)
    requires |toks| > lim.max
    ensures var piece := OverlapOf(prev, lim) + c.decode(toks[..lim.max]);
            (chunks + [piece]) + LoopPieces(toks[lim.max..], PySuffix(piece, lim.max), c, lim)
            == chunks + LoopPieces(toks, prev, c, lim)
  {
    var piece := OverlapOf(prev, lim) + c.decode(toks[..lim.max]);
    var rest := LoopPieces(toks[lim.max..], PySuffix(piece, lim.max), c, lim);
    LoopStep(toks, prev, c, lim);
    assert (chunks + [piece]) + rest == chunks + ([piece] + rest);
  }

  /** The piece of one loop round: the overlap, when there is a previous piece, then the decoded window. */
  lemma {:induction false} OverlapPrefix(prev: string, lim: Limits, piece: string)
    ensures (if prev != "" then PySuffix(prev, lim.overlap) + piece else piece) == OverlapOf(prev, lim) + piece
  {
    if prev == "" {
      assert "" + piece == piece;
    }
  }

  /** `MergeLast` as the source writes it: `chunks[-2] += chunks[-1]` and then `chunks[:-1]`. */
  lemma MergeInPlace<T>(xs: seq<seq<T>>)
    requires |xs| > 1
    ensures xs[|xs| - 2 := xs[|xs| - 2] + xs[|xs| - 1]][..|xs| - 1] == MergeLast(xs)
  {
  }

  /**
   * `PDFChunker`: the limits and the tokenizer are fixed at construction; `chunk_document`
   * records the document title that the chunk ids start with.
   */
  class PdfChunker {
    const maxChunkLength: Positive
    const overlapLength: int
    const minChunkLength: int
    const codec: Codec
    var documentTitle: Option<string>

    constructor(maxChunkLength: Positive, overlapLength: int, minChunkLength: int, codec: Codec)
      ensures this.maxChunkLength == maxChunkLength && this.overlapLength == overlapLength
      ensures this.minChunkLength == minChunkLength && this.codec == codec
      ensures documentTitle == None
    {
      this.maxChunkLength := maxChunkLength;
      this.overlapLength := overlapLength;
      this.minChunkLength := minChunkLength;
      this.codec := codec;
      documentTitle := None;
    }

    function Lim(): Limits {
      Limits(maxChunkLength, overlapLength, minChunkLength)
    }

    /** The title as the ids spell it (`f"{self.document_title}"`, "None" before any document). */
    function TitleText(): string
      reads this
    {
      if documentTitle.Some? then documentTitle.value else "None"
    }

    /** `_split_text_by_length` */
    method SplitTextByLength(text: string) returns (r: Result<seq<string>>)
      ensures r == SplitText(text, codec, Lim())
    {
      r := SplitTextWith(text, codec, Lim());
    }

    /** `_split_table_by_length` for rows written out by `rowText`. */
    method SplitTableByLength<R>(structuredTable: seq<R>, rowText: R -> string) returns (chunks: seq<seq<R>>)
      ensures chunks == SplitRows(structuredTable, rowText, codec, Lim())
    {
      var tableText := Join("\n", RowTexts(structuredTable, rowText));
      var totalLength := |codec.encode(tableText)|;
      if totalLength > maxChunkLength {
        chunks := [];
        var currentChunk: seq<R> := [];
        var currentLength := 0;
        var prevChunkRow: Option<R> := None;
        ghost var len := RowTokens(codec, rowText);
        for i := 0 to |structuredTable|
          invariant Packing(chunks, currentChunk, currentLength) == Pack(structuredTable[..i], len, maxChunkLength)
          invariant prevChunkRow == None
        {
          assert structuredTable[..i + 1][..i] == structuredTable[..i];
          var row := structuredTable[i];
          var rowLength := |codec.encode(rowText(row))|;
          if currentLength + rowLength > maxChunkLength {
            if |currentChunk| > 0 {
              chunks := chunks + [currentChunk];
            }
            currentChunk := [row];
            currentLength := rowLength;
          } else {
            currentChunk := currentChunk + [row];
            currentLength := currentLength + rowLength;
          }
          if prevChunkRow.Some? && currentLength <= maxChunkLength {
            // the overlap with `prev_chunk_row` is never taken: nothing ever sets it
            assert false;
          }
        }
        assert structuredTable[..|structuredTable|] == structuredTable;
        if |currentChunk| > 0 {
          chunks := chunks + [currentChunk];
        }
        if |chunks| > 1 && |codec.encode(Join(" | ", RowTexts(chunks[|chunks| - 1], rowText)))| < minChunkLength {
          MergeInPlace(chunks);
          chunks := chunks[|chunks| - 2 := chunks[|chunks| - 2] + chunks[|chunks| - 1]];
          chunks := chunks[..|chunks| - 1];
        }
      } else {
        chunks := [structuredTable];
      }
    }

    /** `_chunk_metadata` */
    method ChunkMetadata(metadata: Metadata) returns (chunks: seq<Chunk>)
      ensures chunks == MetadataChunks(metadata, TitleText(), codec, Lim())
    {
      var metadataCopy := metadata.(captions := None, tables := None, pseudoTables := None, headings := None);
      var metadataJson := codec.dumpsMetadata(metadataCopy);
      if |codec.encode(metadataJson)| > maxChunkLength {
        SplitTextFails(metadataJson, codec, Lim());
        var chunkedMetadata := SplitTextByLength(metadataJson);
        chunks := NumberMetadataPieces(TitleText(), chunkedMetadata.value);
      } else {
        chunks := [TextChunk(TitleText() + "_metadata", Meta(metadataCopy))];
      }
    }

    /** `_chunk_headings` */
    method ChunkHeadings(headings: seq<HeadingEntry>) returns (r: Result<seq<Chunk>>)
      ensures r == Expand(headings, HeadingItem(TitleText(), codec, Lim()))
    {
      var chunks: seq<Chunk> := [];
      ghost var f := HeadingItem(TitleText(), codec, Lim());
      for idx := 0 to |headings|
        invariant Expand(headings[..idx], f) == Ok(chunks)
      {
        var heading := headings[idx];
        var splitHeadings := SplitTextByLength(heading.text);
        ExpandSnoc(headings, idx, f);
        if splitHeadings.Err? {
          ExpandFailed(headings, idx + 1, f);
          return Err(splitHeadings.error);
        }
        var pieces := splitHeadings.value;
        ghost var before := chunks;
        ghost var mk := HeadingPiece(TitleText(), idx, heading);
        for j := 0 to |pieces|
          invariant chunks == before + MapSeq(pieces[..j], mk)
        {
          MapSnoc(pieces, j, mk);
          chunks := chunks + [Chunk(HeadingId(TitleText(), idx, heading), Str(pieces[j]), Some(heading.page), Some(Level(heading.level)), None, None, None)];
        }
        assert pieces[..|pieces|] == pieces;
      }
      assert headings[..|headings|] == headings;
      return Ok(chunks);
    }

    /** `_chunk_captions` */
    method ChunkCaptions(captions: seq<CaptionEntry>) returns (r: Result<seq<Chunk>>)
      ensures r == Expand(captions, CaptionItem(TitleText(), codec, Lim()))
    {
      var chunks: seq<Chunk> := [];
      ghost var f := CaptionItem(TitleText(), codec, Lim());
      for idx := 0 to |captions|
        invariant Expand(captions[..idx], f) == Ok(chunks)
      {
        var caption := captions[idx];
        var splitHeadings := SplitTextByLength(caption.text);
        ExpandSnoc(captions, idx, f);
        if splitHeadings.Err? {
          ExpandFailed(captions, idx + 1, f);
          return Err(splitHeadings.error);
        }
        var pieces := splitHeadings.value;
        ghost var before := chunks;
        ghost var mk := CaptionPiece(TitleText(), idx, caption);
        for j := 0 to |pieces|
          invariant chunks == before + MapSeq(pieces[..j], mk)
        {
          MapSnoc(pieces, j, mk);
          chunks := chunks + [Chunk(CaptionId(TitleText(), idx, caption), Str(pieces[j]), Some(caption.page), Some(Levels(caption.headingLevels)), None, None, None)];
        }
        assert pieces[..|pieces|] == pieces;
      }
      assert captions[..|captions|] == captions;
      return Ok(chunks);
    }

    /** One table of the loop of `_chunk_tables`. */
    method ChunkTable(idx: nat, table: TableEntry) returns (chunks: seq<Chunk>)
      ensures Ok(chunks) == TableChunks(TitleText(), codec, Lim(), idx, table)
    {
      var title := TitleText();
      var structuredTableJson := codec.dumpsTable(table.table);
      if |codec.encode(structuredTableJson)| > maxChunkLength {
        var splitTexts := SplitTableByLength(table.table, CellsText());
        chunks := [];
        for splitIdx := 0 to |splitTexts|
          invariant chunks == TableParts(title, idx, table, splitTexts[..splitIdx])
        {
          TablePartsSnoc(title, idx, table, splitTexts, splitIdx);
          chunks := chunks + [Chunk(TableId(title, idx, table) + "_" + NatToString(splitIdx + 1), Rows(splitTexts[splitIdx]), Some(table.page), None, None, None, None)];
        }
        assert splitTexts[..|splitTexts|] == splitTexts;
      } else {
        chunks := [Chunk(TableId(title, idx, table), Rows(table.table), Some(table.page), None, None, None, None)];
      }
    }

    /** `_chunk_tables` */
    method ChunkTables(tables: seq<TableEntry>) returns (chunks: seq<Chunk>)
      ensures Expand(tables, TableItem(TitleText(), codec, Lim())) == Ok(chunks)
    {
      chunks := [];
      ghost var f := TableItem(TitleText(), codec, Lim());
      for idx := 0 to |tables|
        invariant Expand(tables[..idx], f) == Ok(chunks)
      {
        ExpandSnoc(tables, idx, f);
        var cs := ChunkTable(idx, tables[idx]);
        chunks := chunks + cs;
      }
      assert tables[..|tables|] == tables;
    }

    /** One pseudo-table of the loop of `_chunk_pseudo_tables`. */
    method ChunkPseudoTable(idx: nat, pseudoTable: PseudoTableEntry) returns (r: Result<seq<Chunk>>)
      ensures r == PseudoChunks(TitleText(), codec, Lim(), idx, pseudoTable)
    {
      var title := TitleText();
      var structuredPseudoTableJson := codec.dumpsLines(pseudoTable.contents);
      if |codec.encode(structuredPseudoTableJson)| > maxChunkLength {
        var splitTexts := SplitTableByLength(pseudoTable.contents, LineText());
        r := PseudoTableParts(title, idx, pseudoTable, splitTexts);
        return;
      } else {
        if pseudoTable.pages == [] {
          return Err(IndexError);
        }
        r := Ok([PseudoChunk(PseudoId(title, idx, pseudoTable.pages[0]), pseudoTable.contents, pseudoTable)]);
      }
    }

    /** `_chunk_pseudo_tables` */
    method ChunkPseudoTables(pseudoTables: seq<PseudoTableEntry>) returns (r: Result<seq<Chunk>>)
      ensures r == Expand(pseudoTables, PseudoItem(TitleText(), codec, Lim()))
    {
      var chunks: seq<Chunk> := [];
      ghost var f := PseudoItem(TitleText(), codec, Lim());
      for idx := 0 to |pseudoTables|
        invariant Expand(pseudoTables[..idx], f) == Ok(chunks)
      {
        ExpandSnoc(pseudoTables, idx, f);
        var cs := ChunkPseudoTable(idx, pseudoTables[idx]);
        if cs.Err? {
          ExpandFailed(pseudoTables, idx + 1, f);
          return Err(cs.error);
        }
        chunks := chunks + cs.value;
      }
      assert pseudoTables[..|pseudoTables|] == pseudoTables;
      return Ok(chunks);
    }

    /** One paragraph of the page loop of `chunk_document`. */
    method ChunkParagraph(page: Page, j: nat) returns (chunks: seq<Chunk>)
      requires j < |page.paragraphs|
      ensures chunks == ParaChunks(TitleText(), page, j, codec, Lim())
    {
      var paragraph := page.paragraphs[j];
      var chunkText := paragraph.text;
      var id := TitleText() + "_page_" + IntToString(page.number) + "_paragraph_"
                + NatToString(FirstIndex(page.paragraphs, paragraph) + 1);
      var tokenCount := |codec.encode(chunkText)|;
      if tokenCount > maxChunkLength {
        SplitTextFails(chunkText, codec, Lim());
        var splitTexts := SplitTextByLength(chunkText);
        var pieces := splitTexts.value;
        ghost var mk := ParaPiece(TitleText(), page, j);
        chunks := [];
        for k := 0 to |pieces|
          invariant chunks == MapSeq(pieces[..k], mk)
        {
          MapSnoc(pieces, k, mk);
          chunks := chunks + [Chunk(id, Str(pieces[k]), Some(page.number), Some(Level(paragraph.headingLevel)), Some(TypeName(paragraph.isType)), None, None)];
        }
        assert pieces[..|pieces|] == pieces;
      } else {
        chunks := [Chunk(id, Str(chunkText), Some(page.number), Some(Level(paragraph.headingLevel)), Some(TypeName(paragraph.isType)), None, None)];
      }
    }

    /** The paragraph loop of one page. */
    method ChunkPage(page: Page) returns (chunks: seq<Chunk>)
      ensures chunks == PageChunks(TitleText(), page, |page.paragraphs|, codec, Lim())
    {
      chunks := [];
      for j := 0 to |page.paragraphs|
        invariant chunks == PageChunks(TitleText(), page, j, codec, Lim())
      {
        var cs := ChunkParagraph(page, j);
        chunks := chunks + cs;
      }
    }

    /** The page loop of `chunk_document`. */
    method ChunkPages(pages: seq<Page>) returns (chunks: seq<Chunk>)
      ensures chunks == PagesChunks(TitleText(), pages, codec, Lim())
    {
      chunks := [];
      for i := 0 to |pages|
        invariant chunks == PagesChunks(TitleText(), pages[..i], codec, Lim())
      {
        assert pages[..i + 1][..i] == pages[..i];
        var cs := ChunkPage(pages[i]);
        chunks := chunks + cs;
      }
      assert pages[..|pages|] == pages;
    }

    /**
     * `chunk_document`: records the title, then emits the chunks list by list. A null title
     * raises before the title field is written.
     */
    method ChunkDocument(doc: Document) returns (r: Result<seq<Chunk>>)
      modifies this
      ensures doc.metadata.documentTitle.None? ==> documentTitle == old(documentTitle)
      ensures doc.metadata.documentTitle.Some? ==> documentTitle == Some(DocTitle(doc.metadata).value)
      ensures r == DocumentChunks(doc, codec, Lim())
    {
      var metadata := doc.metadata;
      // `metadata.get("document_title", "Unknown_Title")`: the key is always present.
      var title := metadata.documentTitle;
      if title.None? {
        return Err(AttributeError("replace"));
      }
      documentTitle := Some(ReplaceChar(title.value, ' ', '_'));
      assert TitleText() == DocTitle(metadata).value;
      var chunks := ChunkMetadata(metadata);
      var headings := ChunkHeadings(metadata.headings.GetOr([]));
      if headings.Err? {
        return Err(headings.error);
      }
      chunks := chunks + headings.value;
      var tables := ChunkTables(metadata.tables.GetOr([]));
      chunks := chunks + tables;
      var pseudoTables := ChunkPseudoTables(metadata.pseudoTables.GetOr([]));
      if pseudoTables.Err? {
        return Err(pseudoTables.error);
      }
      chunks := chunks + pseudoTables.value;
      var captions := ChunkCaptions(metadata.captions.GetOr([]));
      if captions.Err? {
        return Err(captions.error);
      }
      chunks := chunks + captions.value;
      var paragraphs := ChunkPages(doc.pages);
      chunks := chunks + paragraphs;
      return Ok(chunks);
    }
  }
}
