# PDF ingestion, vector store and chat memory — a Dafny model

This project models the core of a retrieval pipeline for PDF documents. The pipeline has five stages:

1. **Loading** (`UniversalPDFLoader`). The positioned characters of each page are grouped into lines, and the lines into paragraphs. URLs are attached to paragraphs in two passes. Tables are cleaned and flattened. The document language is detected from a sample, and the page and link bookkeeping of `load_pdf` is done.
2. **Preprocessing** (`PdfPreprocessor`). The stages run in a fixed order:
   - font-size statistics, the main font size and the header/footer candidate sizes;
   - the title;
   - removal of running headers and footers: candidate scan, similarity clustering, candidate removal, and a fallback for short edge text;
   - heading levels by dense rank of size;
   - caption tagging;
   - pseudo-table tagging, with the dot-leader regular expressions written out;
   - the final summary, which moves the tables into the metadata and merges runs of pseudo-table paragraphs into records.
3. **Chunking** (`PDFChunker`). Text is split into token windows with a character overlap and a merge-back of a short tail. Tables are packed row by row under a token bound. The metadata, headings, tables, pseudo-tables, captions and paragraphs become chunks with their ids.
4. **Embedding** (`PDFEmbedder`). Chunks are classified by id and type and formatted with the source's templates. `process_json` runs as a fold that carries the current document title.
5. **Vector store** (`FAISSStore`) and **memory** (`MemoryAgent`):
   - extraction of unique ids, embeddings and texts;
   - three parallel lists that grow together;
   - the mapping from index positions back to chunk ids, and text look-up;
   - a bounded history per chat and the selection `get_memory` returns.

Each core file follows the source's own form:
- Pure computations are functions, with lemmas about them.
- Loops are methods with loop invariants, proved equal to those functions.
- `PdfPreprocessor`, `PDFChunker`, `PDFEmbedder`, `FAISSStore` and `MemoryAgent` are classes whose methods update their fields.

Foreign code is passed in as function-typed parameters, bundled in datatypes:
- `Libs` in the loader: MD5, the URL regex, `urlparse(..).netloc`, `langdetect`;
- `Codec` in the chunker: tiktoken `encode`/`decode` and `json.dumps`;
- `Api` in the embedder: the OpenAI embedding call and Python's `str`.

Sizes and positions are exact decimals, integers in units of 1/10000 pt. The model rounds and compares them exactly:
- `round(x, 2)` is modelled as the nearest multiple of 100, a tie going to the even multiple;
- `round(x, 1)` is modelled as the nearest multiple of 1000, in the same way;
- at decimal ties and at exact thresholds this differs from Python's arithmetic on binary doubles (see "## Left out").

A Python exception becomes an `Err` of `Wrappers.Error` (`KeyError`, `IndexError`, `AttributeError`, `ValueError`, `TypeError`).

Files: `wrappers.dfy`, `strings.dfy` (Python string and list builtins), `document.dfy` (the document JSON), `loader.dfy`, `fontstats.dfy`, `headers.dfy`, `headings.dfy`, `captions.dfy`, `pseudotables.dfy`, `summary.dfy`, `preprocessor.dfy`, `chunker.dfy`, `embedder.dfy`, `vectorstore.dfy`, `memory.dfy`, and `pipeline.dfy` (how the document title passes from the loader to the chunker).

### Behaviour of the source that the model keeps

**Loader**
- `lstrip("www.")` strips a character set, not a prefix, so `web.de` becomes `eb.de` (`Loader.DomainStripsCharacterSet`).
- Domain matching by pieces matches every text that contains a domain's last label, e.g. "ch" matches "Architecture" (`Loader.ShortLabelOverMatches`).
- Pass 1 attaches a URL found in the text to every paragraph whose text contains it. Only URIs attached by domain in pass 2 sit on one paragraph (`Loader.DomainLinkOnOneParagraph`).

**Preprocessing**
- The candidate pass removes every paragraph whose stripped text is any header/footer candidate text, recognized or not. A recognized text combined from several candidates is not itself removed (`Headers.PageAfterRemoval`, `Headers.SingleRecognizedHeaderRemoved`).
- In the caption pass, a paragraph at a positive heading level is skipped with `continue`, so it never becomes the reference paragraph (`Captions.CaptionsAt`).
- In the pseudo-table pass, the miss count is reset on every tagged paragraph, so the `break` at three misses is never taken from the start of a page (`PseudoTables.ModeReached`).

**Chunker**
- Paragraph ids use `list.index`, so equal paragraphs on a page share one id (`Chunking.EqualParagraphsShareId`).

**Embedder**
- `classify_chunk` tests substrings of the whole id, title included. A title containing "heading" makes every chunk a heading (`Embedding.TitleWithHeading`).

**Document title**
- "document_title" starts as the PDF's Title entry and is overwritten only when the title extraction finds a title. With neither, it is null, and `chunk_document` raises AttributeError at `.replace` (`Pipeline.ChunkTitleOfLoadedPdf`).
- Given a metadata chunk with a null title, the embedder prints "None" as the title, and the store skips every later item until the next metadata output (`VectorStore.NullTitleSkips`).

**Vector store**
- A position of -1, which FAISS answers when there are fewer vectors than requested, passes the `< len` check and is reported as the last stored chunk (`VectorStore.MissingHitIsLastChunk`).
- `delete_index` keeps `texts`, but no id reaches them any more (`VectorStore.FaissStore.DeleteIndex`).

## Model

| member | source | states |
|---|---|---|
| Loader.SafeDetectLanguage | src/ingestion/loader.py:69-84 | "unknown" exactly when the stripped sample is blank or shorter than the minimum length; otherwise the detector's answer on the stripped sample |
| Loader.BlankSampleUnknown | src/ingestion/loader.py:81-83 | whatever detector is plugged in, pages whose text is all whitespace give "unknown" |
| Loader.Sample | src/ingestion/loader.py:355 | the sample is the first five raw page texts joined by newlines, cut to 10000 characters |
| Loader.SampleIgnoresLaterPages | src/ingestion/loader.py:355 | pages after the fifth never change the language sample |
| Loader.AnnotationLinks | src/ingestion/loader.py:123-140 | a URI is collected exactly when some annotation has it and it is not empty |
| Loader.TextLinks | src/ingestion/loader.py:142-156 | an empty text has no links |
| Loader.LStripCharsSpec | src/ingestion/loader.py:171 | `lstrip(chars)` keeps a suffix that does not start with a character of the set and drops only characters of the set |
| Loader.DomainOfNetloc | src/ingestion/loader.py:169-172 | the domain never starts with 'w' or '.' |
| Loader.DomainDropsWww | src/ingestion/loader.py:170-171 | any run of 'w', 'W' and '.' in front of a lower-case domain not starting with 'w' or '.' is removed, so "WWW.fhnw.ch" gives "fhnw.ch" |
| Loader.DomainStripsCharacterSet | src/ingestion/loader.py:171 | "web.de" gives "eb.de": the leading 'w' of the domain is stripped too |
| Loader.SplitDomain | src/ingestion/loader.py:192 | at least one piece, and no piece contains a separator '.', '-' or '/' |
| Loader.SplitDomainPieces | src/ingestion/loader.py:192 | there is one piece more than there are separators, and the pieces joined give the domain without its separators |
| Loader.AnyTokenIn | src/ingestion/loader.py:193-196 | true exactly when some non-empty piece, lowercased, occurs in the lowercased text |
| Loader.TextMatchesDomain | src/ingestion/loader.py:174-198 | an empty text or domain never matches; a domain contained in the lowercased text always matches |
| Loader.TokenMatch | src/ingestion/loader.py:192-196 | one non-empty piece of the domain found in the text makes a match |
| Loader.ShortLabelOverMatches | src/ingestion/loader.py:189-196 | a two-label domain matches every text containing its last label |
| Loader.RoundedTops | src/ingestion/loader.py:224-225 | one key per character: its `top` rounded to one decimal |
| Loader.CharsAt | src/ingestion/loader.py:223-228 | the characters under a key all come from the page and round to that key |
| Loader.CharsAtNonEmpty | src/ingestion/loader.py:226-228 | every key that occurs has at least one character |
| Loader.GroupCharsByLine | src/ingestion/loader.py:222-228 | the dict's keys are the distinct rounded tops in first-occurrence order, and each key holds exactly its characters in page order |
| Loader.MaxSize | src/ingestion/loader.py:244 | the largest size of the line's characters: an upper bound that one of them reaches |
| Loader.LineOf | src/ingestion/loader.py:239-245 | the line keeps its key as its position |
| Loader.LineKeysSpec | src/ingestion/loader.py:230 | the keys strictly ascending, each once, and exactly the keys that occur |
| Loader.LinesAt | src/ingestion/loader.py:238-242 | blank lines are skipped: every line kept has text, and there are at most as many lines as keys |
| Loader.GroupLines | src/ingestion/loader.py:232-276 | there are paragraphs exactly when there are lines |
| Loader.Starts | src/ingestion/loader.py:247-258 | the indices of the opening lines are in range and strictly ascending |
| Loader.StartsIff | src/ingestion/loader.py:247-256 | line i opens a paragraph exactly when it is the first line or its gap or size change to the line before is too large |
| Loader.KeepsParagraph | src/ingestion/loader.py:252-255 | the source's test on `prev_y` and `prev_font_size` failing means the line does not open a paragraph |
| Loader.OpensParagraph | src/ingestion/loader.py:252-256 | the source's test on `prev_y` and `prev_font_size` holding means the line opens a paragraph |
| Loader.GroupLinesCount | src/ingestion/loader.py:258-276 | there is one paragraph per opening line |
| Loader.GroupLinesFirstLine | src/ingestion/loader.py:261-268 | each paragraph keeps the size, position, fonts and stripped-text hash of its opening line, and starts without links |
| Loader.GroupLinesText | src/ingestion/loader.py:262-270 | the paragraph texts joined by spaces equal the line texts joined by spaces: no text is lost or reordered |
| Loader.GroupTextsOpen | src/ingestion/loader.py:258-268 | an opening line adds its text as a new last paragraph |
| Loader.GroupTextsMerge | src/ingestion/loader.py:269-270 | a continuing line extends the last paragraph's text by a space and its text |
| Loader.VisitLine | src/ingestion/loader.py:239-273 | one non-blank line keeps the loop state equal to the grouping of the lines seen so far |
| Loader.BuildParagraphs | src/ingestion/loader.py:232-276 | the line loop yields exactly the grouping of the page's non-blank lines in key order |
| Loader.AttachTextLinks | src/ingestion/loader.py:280-285 | a paragraph gets its text's URLs once each, in order; the added set is exactly those URLs |
| Loader.AttachAllTextLinks | src/ingestion/loader.py:278-285 | pass 1 gives every paragraph its own URLs, and the assigned set is every URL of every paragraph text |
| Loader.FirstMatch | src/ingestion/loader.py:293-298 | the index of the first paragraph whose text matches the domain, or none when no paragraph matches |
| Loader.FindFirstMatch | src/ingestion/loader.py:293-298 | the inner loop with `break` finds exactly `FirstMatch` |
| Loader.Target | src/ingestion/loader.py:289-294 | a URI has a target paragraph only when its domain is not empty |
| Loader.AttachUri | src/ingestion/loader.py:289-298 | one URI keeps the links valid; it is added only when its domain matches a paragraph, and when it matches but is not added, a paragraph text already has it |
| Loader.LinkedStep | src/ingestion/loader.py:295-297 | the assigned set grows by the URI exactly when pass 2 attaches it |
| Loader.AttachDomainLinks | src/ingestion/loader.py:287-300 | after pass 2, every paragraph holds its own URLs first, then the known URIs whose domain first matches it, and nothing else; the assigned set is the text URLs plus those URIs |
| Loader.DomainLinkOnOneParagraph | src/ingestion/loader.py:280-298 | a URI appearing on two paragraphs must be in some paragraph's text: a domain-attached URI sits on one paragraph only |
| Loader.ExtractParagraphsWithFonts | src/ingestion/loader.py:200-300 | the paragraphs are the page's grouping with both link passes applied; the assigned set is as pass 1 and 2 state; a page without characters gives nothing |
| Loader.CleanTable | src/ingestion/loader.py:398-401 | same shape as the raw table; a None cell becomes "" and every other cell is kept |
| Loader.RowHasContentIff | src/ingestion/loader.py:403 | true exactly when some cell of the row is not all whitespace |
| Loader.HasContentIff | src/ingestion/loader.py:402-404 | true exactly when some cell of the table is not all whitespace |
| Loader.RowTexts | src/ingestion/loader.py:313-315 | one line per row, its cells joined by " \| " |
| Loader.TableTextLines | src/ingestion/loader.py:302-316 | splitting the table text on newlines gives back the row lines, as long as no cell holds a newline |
| Loader.PageTablesKept | src/ingestion/loader.py:395-411 | every kept table is on the page, has a non-blank cell and carries its flattened text; no table with a non-blank cell is dropped |
| Loader.PageTableOrigin | src/ingestion/loader.py:397-411 | each kept entry is the cleaned form of one raw table of the page, with a non-blank cell, the page number and its flattened text |
| Loader.CollectPageTables | src/ingestion/loader.py:396-411 | the table loop yields exactly `PageTables` |
| Loader.AllTablesOrdered | src/ingestion/loader.py:358-411 | the tables come in page order, numbered 1..N, and none is blank |
| Loader.LoadedMetadata | src/ingestion/loader.py:413-427 | "document_title" is the PDF's Title entry (null without one), the other PDF entries are copied, and the language, file name, file hash, page count and links are those of the PDF; the keys later stages add are absent |
| Loader.PageLinkSets | src/ingestion/loader.py:359-363 | each page's link set is the union of its text and annotation links |
| Loader.AssignedNext | src/ingestion/loader.py:373 | after page i the globally assigned links are those before it plus what page i assigned |
| Loader.AssignedGrows | src/ingestion/loader.py:366-373 | once assigned, a link stays assigned for every later page |
| Loader.PageLinksUnassigned | src/ingestion/loader.py:375-391 | a link left on a page's `links` was not assigned to a paragraph on that page or on any earlier one |
| Loader.CollectRawTexts | src/ingestion/loader.py:345-353 | the first page loop gives every page's raw text and the union of all text and annotation links |
| Loader.LoadPage | src/ingestion/loader.py:359-393 | one page is built from the links not assigned earlier, with its paragraph text, links and number, and the global set is advanced |
| Loader.BuiltPageAt | src/ingestion/loader.py:366-393 | the record built from the paragraphs and the links page i assigned is the one `PageBuilt` describes, and the global set grows by exactly those links |
| Loader.LoadStep | src/ingestion/loader.py:358-411 | one iteration of the page loop extends the records, tables and assigned links of the first i pages to those of the first i + 1 |
| Loader.LoadPages | src/ingestion/loader.py:358-411 | one page record per page, each as `PageBuilt` states, and the kept tables when asked for |
| Loader.LoadPdf | src/ingestion/loader.py:318-432 | `load_pdf`: the metadata block, one built page per PDF page, and the tables when `extract_tables` holds |
| FontStats.BumpCount | src/ingestion/preprocessing.py:167 | counting a size adds one to that size's count, to no other count, and to the total |
| FontStats.BumpKeys | src/ingestion/preprocessing.py:167 | the keys after counting are the old keys plus the size |
| FontStats.BumpDistinct | src/ingestion/preprocessing.py:167 | counting keeps the keys distinct |
| FontStats.CountSizesSpec | src/ingestion/preprocessing.py:163-169 | each paragraph is counted once under its size rounded to two decimals; the keys are distinct and occur exactly when some paragraph has that size; the counts add up to the number of paragraphs |
| FontStats.SizeCountPositive | src/ingestion/preprocessing.py:164-167 | a size has a positive count exactly when some paragraph rounds to it |
| FontStats.CountFontSizes | src/ingestion/preprocessing.py:163-167 | the counting loop computes exactly `CountSizes` |
| FontStats.FirstMax | src/ingestion/preprocessing.py:172 | `max(..., key=get)`: an entry of largest count, the first one on ties |
| FontStats.MainSize | src/ingestion/preprocessing.py:170-172 | there is a main size exactly when some size was counted, and it is a counted size |
| FontStats.Others | src/ingestion/preprocessing.py:177-181 | exactly the entries whose size is not the main size |
| FontStats.SortByDist | src/ingestion/preprocessing.py:182 | the entries sorted by distance to the main size, as a permutation |
| FontStats.CandidatesFew | src/ingestion/preprocessing.py:183-184 | at most five candidate sizes, never the main size |
| FontStats.CandidatesCounted | src/ingestion/preprocessing.py:183-184 | every candidate is a counted size |
| FontStats.CandidatesNearest | src/ingestion/preprocessing.py:182-184 | every candidate is at least as near to the main size as every counted size left out |
| FontStats.StoredCandidatesSorted | src/ingestion/preprocessing.py:189-191 | the stored list holds exactly the candidate sizes, each once, strictly ascending |
| Headers.ScanStops | src/ingestion/preprocessing.py:462-488 | the scan stops at some index; before it each paragraph is kept when it is a candidate and left over otherwise, in order; at that index sits the candidate too far from the last kept one |
| Headers.ScanChained | src/ingestion/preprocessing.py:480-486 | consecutive kept candidates are never further apart than the merge threshold |
| Headers.DetectCandidates | src/ingestion/preprocessing.py:450-493 | `_detect_candidates` returns the scan's candidates, reversed when asked, and its left-over paragraphs |
| Headers.Texts | src/ingestion/preprocessing.py:347-348 | one stripped text per candidate |
| Headers.PageZones | src/ingestion/preprocessing.py:334-348 | a page's header texts top-down and footer texts bottom-up, after the double reversal |
| Headers.Combineds | src/ingestion/preprocessing.py:350-354 | one combined text per page, blank ones included |
| Headers.FlatMember | src/ingestion/preprocessing.py:359-383 | a text is in the flat set exactly when it is a candidate text of a page whose combined text is not blank |
| Headers.CollectZones | src/ingestion/preprocessing.py:331-383 | the first page loop gives the combined texts and the flat header and footer sets |
| Headers.FirstSimilar | src/ingestion/preprocessing.py:518-523 | the first representative the text is similar to, or none when none is |
| Headers.FindCluster | src/ingestion/preprocessing.py:517-523 | the inner loop with `break` finds exactly `FirstSimilar` |
| Headers.FrequentIff | src/ingestion/preprocessing.py:530-534 | a text is kept exactly when some cluster it represents reached the minimum |
| Headers.ClusterCounts | src/ingestion/preprocessing.py:513-527 | every non-blank text is counted in exactly one cluster; the counts add up to the number of non-blank texts, each cluster was counted at least once, and each representative is a non-blank input text |
| Headers.AddTextOk | src/ingestion/preprocessing.py:512-527 | adding a text keeps every cluster counted at least once under a non-blank representative, and adds one to the total exactly when the text is not blank |
| Headers.RecognizedIff | src/ingestion/preprocessing.py:529-534 | a representative is recognized exactly when its count reaches `int(len(texts) * 0.5)`, blank texts included in the length |
| Headers.RecognizedFromTexts | src/ingestion/preprocessing.py:510-536 | every recognized text is a non-blank text of the list it came from |
| Headers.ClusterRepeatedTexts | src/ingestion/preprocessing.py:495-536 | the clustering loop computes exactly `Recognized` |
| Headers.CleanPageSpec | src/ingestion/preprocessing.py:389-401 | the survivors are exactly the paragraphs whose stripped text is no candidate text, in order; every other paragraph is reported once, as a header when its text is a header text |
| Headers.CleanParagraphs | src/ingestion/preprocessing.py:386-401 | one page of the removal loop computes exactly `CleanPage` |
| Headers.CleanAllPages | src/ingestion/preprocessing.py:385-401 | the removal loop over the pages |
| Headers.FallbackPageSpec | src/ingestion/preprocessing.py:409-438 | the fallback keeps exactly the main-size paragraphs and those that are not short edge text of an enabled side, in order; all it removes is short edge text |
| Headers.FallbackDisabled | src/ingestion/preprocessing.py:407 | with both sides disabled nothing is removed |
| Headers.FallbackParagraphs | src/ingestion/preprocessing.py:409-438 | one page of the fallback loop computes exactly `FallbackPage` |
| Headers.FallbackAllPages | src/ingestion/preprocessing.py:407-438 | the fallback loop over the pages |
| Headers.RemoveHeadersFooters | src/ingestion/preprocessing.py:298-448 | the page count is kept |
| Headers.PageAfterRemoval | src/ingestion/preprocessing.py:385-438 | a page keeps its own paragraphs minus every paragraph whose stripped text is a candidate text of some page, then the fallback filter when a side recognized nothing; nothing else on the page changes |
| Headers.NoCandidateTextSurvives | src/ingestion/preprocessing.py:385-401 | no survivor's stripped text is a candidate text of a page with a non-blank combined text |
| Headers.FallbackKeepsMainSize | src/ingestion/preprocessing.py:416-418 | the fallback never removes a paragraph of exactly the main size |
| Headers.FallbackOnlyWhenUnrecognized | src/ingestion/preprocessing.py:404-407 | a side whose texts were recognized has nothing removed by the fallback |
| Headers.SingleRecognizedHeaderRemoved | src/ingestion/preprocessing.py:359-401 | a recognized header that is the text of a single-candidate page leaves no survivor with that text |
| Headers.DetectAndRemove | src/ingestion/preprocessing.py:321-448 | `_detect_and_remove_headers_footers` loop by loop computes exactly `RemoveHeadersFooters` |
| Headings.CollectHeadingSizes | src/ingestion/preprocessing.py:219-235 | pass 1 collects exactly the rounded sizes of the paragraphs above the main size with qualifying text |
| Headings.Rank | src/ingestion/preprocessing.py:238-241 | a level is at least 1 |
| Headings.RankOrder | src/ingestion/preprocessing.py:238-241 | levels lie in 1..number of sizes; a larger size gets a strictly smaller level, an equal size the same level |
| Headings.ClassifySpec | src/ingestion/preprocessing.py:248-291 | a paragraph becomes a heading exactly when its rounded size exceeds main + epsilon and its stripped text qualifies; it then gets its size's level and is reported with stripped text, size and page; otherwise it is body text, at level -1 exactly when below main - epsilon; only level and tag change |
| Headings.FallbackLevelUnused | src/ingestion/preprocessing.py:259-261 | the fallback level 1 is never needed: every pass-2 heading size was collected in pass 1 |
| Headings.ClassifyParagraph | src/ingestion/preprocessing.py:249-291 | the loop body computes exactly `Classify` |
| Headings.LevelPage | src/ingestion/preprocessing.py:248-291 | a page keeps its paragraph count |
| Headings.LevelParagraphs | src/ingestion/preprocessing.py:248-291 | the paragraph loop computes exactly `LevelPage` |
| Headings.ResetPage | src/ingestion/preprocessing.py:211-214 | without a main size every paragraph becomes level-0 body text and nothing else changes |
| Headings.ResetParagraphs | src/ingestion/preprocessing.py:212-214 | the reset loop computes exactly `ResetPage` |
| Headings.NoMainSizeNoHeadings | src/ingestion/preprocessing.py:209-217 | without a main size there are no headings and every paragraph is level-0 body text |
| Headings.HeadingsAt | src/ingestion/preprocessing.py:246-291 | with a main size each paragraph is classified against the pass-1 sizes, and only paragraphs change |
| Headings.HeadingLevelsRanked | src/ingestion/preprocessing.py:235-262 | of two headings, the larger size has the smaller level and equal sizes share a level |
| Headings.HeadingEntriesOk | src/ingestion/preprocessing.py:265-271 | every `headings` entry has a qualifying text above the main size, a level of at least 1 and a page of the document |
| Headings.DetectHeadingsIn | src/ingestion/preprocessing.py:193-296 | `_detect_headings` computes exactly `DetectHeadings` |
| Headings.ResetAllPages | src/ingestion/preprocessing.py:209-216 | without a main size every paragraph of every page becomes level 0, normal |
| Headings.LevelAllPages | src/ingestion/preprocessing.py:246-291 | pass 2 gives every page its leveled paragraphs and collects the headings in page order |
| Captions.LastRef | src/ingestion/preprocessing.py:582-595 | the reference paragraph is the last earlier one that is the first of the page or not at a positive level |
| Captions.CaptionsAt | src/ingestion/preprocessing.py:569-595 | only the tag changes; the first paragraph is body text; a later one is a caption exactly when it is at level -1 or below and further than twice the reference's size from it; otherwise it keeps a heading tag at a positive level and becomes body text if not |
| Captions.CaptionsKeepHeadings | src/ingestion/preprocessing.py:575-588 | a caption is always below the body size, and a heading after the first paragraph stays unchanged |
| Captions.TagCaptionsOnPage | src/ingestion/preprocessing.py:566-595 | the page loop with `continue` computes exactly `CaptionScan` |
| Captions.CaptionsOfDocument | src/ingestion/preprocessing.py:565-597 | on every page only paragraph tags change, each as `CaptionsAt` states |
| Captions.DetectCaptionsIn | src/ingestion/preprocessing.py:560-597 | the page loop computes exactly `DetectCaptions` |
| PseudoTables.SkipSpace | src/ingestion/preprocessing.py:624 | a greedy `\s*` ends at the first non-whitespace character |
| PseudoTables.LeaderMatchIff | src/ingestion/preprocessing.py:624 | the match test holds exactly when four dots separated by whitespace start after a non-empty first line |
| PseudoTables.FourDotsMatch | src/ingestion/preprocessing.py:624 | "...." after a non-empty first line always matches |
| PseudoTables.DotGroups | src/ingestion/preprocessing.py:628 | the greedy `(\s*\.)*` covers only dots and whitespace |
| PseudoTables.ReplaceKeepsVisible | src/ingestion/preprocessing.py:628 | replacing leaders removes only dots and whitespace: every other character is kept, in order |
| PseudoTables.LeaderReplaced | src/ingestion/preprocessing.py:624-628 | a text the match accepts gets at least one tab |
| PseudoTables.ReplaceLeavesNoLeader | src/ingestion/preprocessing.py:628-643 | no run of three dots survives the replacement |
| PseudoTables.RunSnoc | src/ingestion/preprocessing.py:616-644 | one paragraph more is tagged in the mode reached before it, and the mode advances |
| PseudoTables.RunBreak | src/ingestion/preprocessing.py:637-638 | after the `break` the rest of the page is untouched |
| PseudoTables.ModeReached | src/ingestion/preprocessing.py:630-644 | from the start of a page the miss count never exceeds 1, so the `break` is never taken; the loop is inside a pseudo-table exactly after a leader line |
| PseudoTables.PseudoTablesAt | src/ingestion/preprocessing.py:616-644 | captions are untouched; a leader line becomes a pseudo-table line with its leaders replaced; a later line of the page becomes a pseudo-table line with its text kept; lines before the first leader line stay as they are |
| PseudoTables.TagPseudoTablesOnPage | src/ingestion/preprocessing.py:610-644 | the page loop with its `break` computes exactly `Run` |
| PseudoTables.TagStep | src/ingestion/preprocessing.py:617-644 | one paragraph of the page loop: the paragraph and the mode it leaves are the specification step; a stop leaves the paragraph as it was |
| PseudoTables.DetectPseudoTablesIn | src/ingestion/preprocessing.py:599-675 | the page loop computes exactly `DetectPseudoTables` |
| Summary.FinishOk | src/ingestion/preprocessing.py:718-721 | finishing a run keeps its contents and removes duplicate pages and levels |
| Summary.SummaryOfStream | src/ingestion/preprocessing.py:694-740 | the records' contents, one after the other, are exactly the pseudo-table paragraph texts in order; each record's text is its contents joined by spaces with duplicate-free pages and levels; there is one caption entry per caption paragraph, in order |
| Summary.SaveMetadata | src/ingestion/preprocessing.py:677-754 | fails with KeyError("tables") exactly when the top-level key is missing; otherwise the pages are kept and the key is gone |
| Summary.CollectSummary | src/ingestion/preprocessing.py:691-740 | the nested loops compute the records after the final flush, and the captions |
| Preprocessing.CollectParagraphs | src/ingestion/preprocessing.py:122-132 | the snapshot is every page's paragraphs, in order |
| Preprocessing.FirstLargest | src/ingestion/preprocessing.py:144 | `max(..., key=font_size)`: a largest paragraph, the first on ties |
| Preprocessing.FirstLargestUnique | src/ingestion/preprocessing.py:144 | there is one first largest paragraph |
| Preprocessing.TitleOfSpec | src/ingestion/preprocessing.py:134-152 | a title exists exactly when the first largest paragraph's stripped text is not blank, and it is that text |
| Preprocessing.RemovalStage | src/ingestion/preprocessing.py:321-441 | without a main size nothing changes and `{}` is returned; with one, the recognized lists are written |
| Preprocessing.PdfPreprocessor.constructor | src/ingestion/preprocessing.py:91-103 | the snapshot of all paragraphs is taken and the other fields start empty |
| Preprocessing.PdfPreprocessor.AnalyzeFontSizes | src/ingestion/preprocessing.py:154-191 | the font fields become the statistics, the main size and the candidates, and the three metadata keys are written |
| Preprocessing.PdfPreprocessor.SetFontFields | src/ingestion/preprocessing.py:173-184 | the statistics, the main size and the candidate sizes become the three font fields; the document and the title are unchanged |
| Preprocessing.PdfPreprocessor.WriteFontMetadata | src/ingestion/preprocessing.py:186-191 | writes the three font keys and changes no field |
| Preprocessing.PdfPreprocessor.ExtractTitle | src/ingestion/preprocessing.py:134-152 | returns `TitleOf`, and stores it only when found |
| Preprocessing.PdfPreprocessor.DetectAndRemoveHeadersFooters | src/ingestion/preprocessing.py:298-448 | the document and the returned info are `RemovalStage` |
| Preprocessing.PdfPreprocessor.DetectHeadings | src/ingestion/preprocessing.py:193-296 | the document and headings are the heading stage over the snapshot |
| Preprocessing.PdfPreprocessor.DetectTableAndImageCaptions | src/ingestion/preprocessing.py:560-597 | the document becomes the caption stage |
| Preprocessing.PdfPreprocessor.DetectPseudoTables | src/ingestion/preprocessing.py:599-675 | the document becomes the pseudo-table stage |
| Preprocessing.PdfPreprocessor.ProcessAndSaveMetadata | src/ingestion/preprocessing.py:677-754 | `SaveMetadata`, and the document is left as it was on KeyError |
| Preprocessing.PdfPreprocessor.RunPreprocessing | src/ingestion/preprocessing.py:105-120 | the stages in order; when the last one fails, the earlier changes stay |
| Preprocessing.RunOnce | src/ingestion/preprocessing.py:91-120 | a fresh preprocessor runs `Preprocess` |
| Preprocessing.PreprocessFailsWithoutTables | src/ingestion/preprocessing.py:684-688 | the run fails, with KeyError("tables"), exactly when the top-level tables key is missing |
| Preprocessing.PreprocessKeepsPages | src/ingestion/preprocessing.py:105-120 | the pages of a successful run are the input pages with only their paragraphs changed; the tables move into the metadata |
| Preprocessing.PreprocessMetadata | src/ingestion/preprocessing.py:105-120 | the loader's metadata fields are kept; the font statistics, main size and candidates are those of the paragraphs; the title is written only when found; headers and footers are handled exactly when there is a main size; every heading entry qualifies |
| Preprocessing.PreprocessTitle | src/ingestion/preprocessing.py:140-149 | with the tables key present the run succeeds, and "document_title" is the extracted title when one is found and otherwise what the loader wrote |
| Preprocessing.PreprocessSummaries | src/ingestion/preprocessing.py:694-751 | the summaries of a successful run are as `SummaryOfStream` states, over the final pages |
| Chunking.Slices | src/ingestion/chunker.py:116-138 | there are no slices exactly when there are no tokens |
| Chunking.SlicesPartition | src/ingestion/chunker.py:116-138 | the slices partition the tokens in order: all but the last hold exactly `max`, the last holds 1..max, and there are ceil(n/max) of them |
| Chunking.LoopPieces | src/ingestion/chunker.py:116-138 | one piece per slice |
| Chunking.PieceAt | src/ingestion/chunker.py:118-133 | piece k decodes slice k; a loop piece is prefixed with the last `overlap` characters of the last `max` characters of the piece before it (Python's `s[-0:]` included); the remainder gets no prefix |
| Chunking.MergeLast | src/ingestion/chunker.py:142-143 | one part fewer, same elements in the same order |
| Chunking.MergeInPlace | src/ingestion/chunker.py:142-143 | `chunks[-2] += chunks[-1]` and then `chunks[:-1]` is `MergeLast` |
| Chunking.MergeTailKeepsText | src/ingestion/chunker.py:141-143 | a short last piece is appended to the one before and dropped, otherwise nothing changes; the characters are the same either way |
| Chunking.SplitTextFails | src/ingestion/chunker.py:141 | the split fails, with IndexError from `chunks[-1]`, exactly when the text has no tokens |
| Chunking.SplitTextShort | src/ingestion/chunker.py:136-138 | text within the bound comes back as one piece: the decode of all its tokens |
| Chunking.SplitTextPieces | src/ingestion/chunker.py:100-145 | the split is the loop pieces after the merge-back, each piece its overlap plus the decode of its slice |
| Chunking.PdfChunker.SplitTextByLength | src/ingestion/chunker.py:100-145 | the method computes exactly `SplitText` |
| Chunking.SplitTextWith | src/ingestion/chunker.py:112-145 | with the chunker's settings as parameters: the result is `SplitText`, an IndexError when no piece was produced |
| Chunking.WindowPieces | src/ingestion/chunker.py:112-137 | the window loop yields exactly `LoopPieces`: windows of `max` tokens, each after the first prefixed by the overlap of the previous piece, then the rest |
| Chunking.ClosePacking | src/ingestion/chunker.py:170-206 | the closed packing gives back the rows in order, and no chunk is empty or over the bound unless it is a single row |
| Chunking.SplitRowsSpec | src/ingestion/chunker.py:147-224 | a table within the bound is returned as the only chunk; otherwise the chunks give back the rows in order and none is empty |
| Chunking.PdfChunker.SplitTableByLength | src/ingestion/chunker.py:147-224 | the method computes exactly `SplitRows` |
| Chunking.WithoutLists | src/ingestion/chunker.py:237-241 | the four lists are absent, and every other field is the original's |
| Chunking.MetadataPieces | src/ingestion/chunker.py:250-257 | piece i becomes a chunk `{title}_metadata_chunk_{i}` |
| Chunking.MetadataChunksSpec | src/ingestion/chunker.py:226-267 | metadata within the bound is one chunk `{title}_metadata` with the reduced copy; longer metadata gives numbered string chunks whose texts hold exactly the characters of its JSON pieces |
| Chunking.PdfChunker.ChunkMetadata | src/ingestion/chunker.py:226-267 | the method computes exactly `MetadataChunks` |
| Chunking.HeadingChunksSpec | src/ingestion/chunker.py:280-290 | a heading fails exactly when its text has no tokens; otherwise all its chunks carry its id, page and level, their texts are the pieces, and short text gives exactly one chunk |
| Chunking.HeadingsFail | src/ingestion/chunker.py:279-291 | the heading list fails exactly when some heading text has no tokens |
| Chunking.PdfChunker.ChunkHeadings | src/ingestion/chunker.py:269-291 | the method computes exactly the item-by-item expansion |
| Chunking.CaptionChunksSpec | src/ingestion/chunker.py:388-398 | a caption fails exactly when its text has no tokens; otherwise its chunks carry its id, page and list of levels, and their texts are the pieces |
| Chunking.CaptionsFail | src/ingestion/chunker.py:387-399 | the caption list fails exactly when some caption text has no tokens |
| Chunking.PdfChunker.ChunkCaptions | src/ingestion/chunker.py:377-399 | the method computes exactly the item-by-item expansion |
| Chunking.TableParts | src/ingestion/chunker.py:313-319 | part j becomes chunk `..._structured_{j+1}` |
| Chunking.TableChunksSpec | src/ingestion/chunker.py:304-327 | a table never fails; one whose JSON fits is one `..._structured` chunk with all rows; a longer one gives numbered chunks whose rows are the table's rows in order; all carry the page |
| Chunking.TablesNeverFail | src/ingestion/chunker.py:293-329 | the table list never fails |
| Chunking.PdfChunker.ChunkTable | src/ingestion/chunker.py:305-327 | one table of the loop computes exactly `TableChunks` |
| Chunking.PdfChunker.ChunkTables | src/ingestion/chunker.py:293-329 | the loop computes exactly the item-by-item expansion |
| Chunking.PseudoParts | src/ingestion/chunker.py:357-364 | part j becomes chunk `..._structured_{j+1}` with the record's pages and levels |
| Chunking.PseudoChunksSpec | src/ingestion/chunker.py:342-373 | a pseudo-table with pages never fails, one with lines but no pages fails with IndexError (`pages[0]`); otherwise its chunks hold its lines in order and carry its pages and levels |
| Chunking.PdfChunker.ChunkPseudoTable | src/ingestion/chunker.py:346-373 | one record of the loop computes exactly `PseudoChunks` |
| Chunking.PseudoTableParts | src/ingestion/chunker.py:356-365 | one chunk per row group, numbered from 1 under the first page; no group gives no chunk, groups without a page raise IndexError |
| Chunking.PdfChunker.ChunkPseudoTables | src/ingestion/chunker.py:331-375 | the loop computes exactly the item-by-item expansion |
| Chunking.ExpandFails | src/ingestion/chunker.py:279-291 | a list fails exactly when some item does |
| Chunking.ExpandFailed | src/ingestion/chunker.py:279-291 | once a prefix fails, the whole list fails the same way |
| Chunking.ExpandOrder | src/ingestion/chunker.py:279-291 | every item contributes its own chunks, in item order |
| Chunking.FirstIndex | src/ingestion/chunker.py:444 | `list.index`: the first position holding an equal value |
| Chunking.EqualParagraphsShareId | src/ingestion/chunker.py:444-453 | two equal paragraphs of one page get the same id |
| Chunking.ParaChunksSpec | src/ingestion/chunker.py:437-459 | a paragraph within the bound is one chunk with its text, a longer one its split pieces; every chunk carries the paragraph's id, page, level and type |
| Chunking.PdfChunker.ChunkParagraph | src/ingestion/chunker.py:438-459 | the loop body computes exactly `ParaChunks` |
| Chunking.PdfChunker.ChunkPage | src/ingestion/chunker.py:437-459 | the paragraph loop of a page |
| Chunking.PdfChunker.ChunkPages | src/ingestion/chunker.py:435-459 | the page loop |
| Chunking.DocTitle | src/ingestion/chunker.py:414-416 | AttributeError exactly when "document_title" is null; otherwise the title with every space made an underscore and every other character kept |
| Chunking.DocumentChunksFail | src/ingestion/chunker.py:401-461 | the document fails exactly when its title is null, a heading or caption has no tokens, or a pseudo-table fails; a null title fails with AttributeError |
| Chunking.DocumentChunksOrder | src/ingestion/chunker.py:411-461 | chunks come as metadata, headings, tables, pseudo-tables, captions, then the paragraphs page by page, each list item by item |
| Chunking.PdfChunker.constructor | src/ingestion/chunker.py:78-98 | the three lengths and the tokenizer are stored and there is no title yet |
| Chunking.PdfChunker.ChunkDocument | src/ingestion/chunker.py:401-461 | records the title, left unchanged when it is null, and computes exactly `DocumentChunks` |
| Pipeline.ChunkTitleOfLoadedPdf | src/ingestion/chunker.py:414-416 | for a loaded and preprocessed PDF the ids start with the extracted title, else with the PDF's Title entry, and with neither `chunk_document` raises AttributeError |
| Embedding.HeadingChunksAreHeadings | src/ingestion/embedder.py:21-39 | every chunk `_chunk_headings` makes is classified as a heading |
| Embedding.TitleWithHeading | src/ingestion/embedder.py:38-39 | a title containing "heading" makes every chunk with that title a heading |
| Embedding.PseudoTableBeforeTable | src/ingestion/embedder.py:38-47 | an id with "pseudo_table" and without "heading" is a pseudo-table, never a table |
| Embedding.ParagraphsByType | src/ingestion/embedder.py:54-58 | a chunk whose id matches no keyword is a paragraph exactly when `is_type` is "normal", otherwise unknown |
| Embedding.Template | src/ingestion/embedder.py:60-158 | the heading, caption and paragraph texts are the document title, then the fixed label with its kind, page and level, then the chunk text, and nothing else |
| Embedding.NumberedLines | src/ingestion/embedder.py:119-120 | line i becomes "Line {i+1}: ...; " |
| Embedding.TableTextStrip | src/ingestion/embedder.py:93-96 | with a title that starts with a visible character, stripping removes exactly the final space of the row text |
| Embedding.PseudoTextStrip | src/ingestion/embedder.py:118-121 | the same for the numbered lines |
| Embedding.PdfEmbedder.ProcessTable | src/ingestion/embedder.py:78-96 | the row loop gives the stripped header-plus-rows text |
| Embedding.PdfEmbedder.ProcessPseudoTable | src/ingestion/embedder.py:98-121 | the line loop gives the stripped header-plus-numbered-lines text |
| Embedding.RouteOutput | src/ingestion/embedder.py:180-286 | one chunk adds at most one output |
| Embedding.ProcessSpec | src/ingestion/embedder.py:172-288 | the run fails exactly when some metadata chunk's text is not a dict; otherwise the outputs are those of the emitting chunks in order, and the title is that of the last metadata chunk, "None" when it is null and "Unknown Document" before any |
| Embedding.FailedStays | src/ingestion/embedder.py:176-196 | once a prefix fails, the whole run fails the same way |
| Embedding.PdfEmbedder.constructor | src/ingestion/embedder.py:6-14 | stores the model and the non-empty key |
| Embedding.PdfEmbedder.Embed | src/ingestion/embedder.py:208-286 | one routed chunk gives an output with its id, its formatted text and the embedding of that text |
| Embedding.PdfEmbedder.ProcessJson | src/ingestion/embedder.py:161-288 | the loop fails, with AttributeError, exactly when `ProcessAll` fails, and otherwise returns its results |
| Embedding.NewPdfEmbedder | src/ingestion/embedder.py:6-11 | ValueError("OpenAI API key must be provided.") exactly when the key is missing or empty |
| VectorStore.SourceBeforeSpec | src/vectorstore/faiss_store.py:52-66 | no source before the first metadata output; after it, what the most recent one sets: its title and hash, or none when its title is null |
| VectorStore.NullTitleSkips | src/vectorstore/faiss_store.py:58-66 | after a metadata output with a null title no item is stored until the next metadata output |
| VectorStore.RecordsOrigin | src/vectorstore/faiss_store.py:65-75 | every record comes from a kept item with that item's unique id, embedding and stripped text |
| VectorStore.RecordsComplete | src/vectorstore/faiss_store.py:65-75 | every kept item gives a record |
| VectorStore.NothingBeforeMetadata | src/vectorstore/faiss_store.py:65-66 | items before the first metadata output are never stored |
| VectorStore.ColumnsOf | src/vectorstore/faiss_store.py:73-77 | three lists of equal length, aligned by position with the records |
| VectorStore.FaissStore.ExtractEmbeddings | src/vectorstore/faiss_store.py:47-77 | the loop computes exactly `Extract`: AttributeError for a metadata item whose text is a string, otherwise the columns of the records, with every item skipped while the last metadata output's title is null |
| VectorStore.FaissStore.constructor | src/vectorstore/faiss_store.py:8-22 | there is an index either way and the lists start empty |
| VectorStore.FaissStore.DeleteIndex | src/vectorstore/faiss_store.py:35-45 | no index, empty embeddings and ids, texts kept, and every look-up answers "Text nicht gefunden." |
| VectorStore.FaissStore.AddEmbeddings | src/vectorstore/faiss_store.py:79-98 | nothing for no embeddings; AttributeError without an index; otherwise the three lists grow by the inputs and ValueError follows when embeddings and ids differ in number; aligned inputs keep the lists aligned |
| VectorStore.FaissStore.ProcessJsonAndAdd | src/vectorstore/faiss_store.py:100-106 | an extraction error or a missing index fails and changes nothing; otherwise the extracted columns are added and alignment is kept |
| VectorStore.SearchResult | src/vectorstore/faiss_store.py:116-122 | fails with IndexError exactly when a position is below -len; otherwise at most one match per hit, each with a stored id |
| VectorStore.SearchKeepsInRange | src/vectorstore/faiss_store.py:117-122 | with no negative positions the matches are exactly the in-range hits, in order, with their ids and distances |
| VectorStore.MissingHitIsLastChunk | src/vectorstore/faiss_store.py:118-122 | a position of -1 passes the check and is reported as the last stored chunk |
| VectorStore.FaissStore.SearchVektor | src/vectorstore/faiss_store.py:108-124 | AttributeError without an index, otherwise `SearchResult` |
| VectorStore.LookupText | src/vectorstore/faiss_store.py:131-132 | "Text nicht gefunden." when no id among the zipped pairs matches, otherwise the text of the last match |
| VectorStore.SearchFindsTexts | src/vectorstore/faiss_store.py:134-154 | with as many texts as ids, every result carries the text of the last entry with its id |
| VectorStore.FaissStore.Search | src/vectorstore/faiss_store.py:134-154 | AttributeError without an index, otherwise each match with its looked-up text, in hit order |
| Memory.Remember | src/agents/memory_agent.py:24-35 | the new entry is last; the oldest entry is dropped exactly when the appended history is longer than the limit; a history within a positive limit stays within it |
| Memory.ConversationWindow | src/agents/memory_agent.py:15-38 | with a positive limit a chat's history is always the last `max_history` messages added |
| Memory.Roles | src/agents/memory_agent.py:57-65 | one role per entry |
| Memory.Relevant | src/agents/memory_agent.py:53-73 | the user entries in order, then the last assistant entry if there is one; no other role appears |
| Memory.MemoryAgent.constructor | src/agents/memory_agent.py:5-13 | stores the storage and the limit |
| Memory.MemoryAgent.AddToMemory | src/agents/memory_agent.py:15-41 | a failing storage call leaves the storage as it was; otherwise the chat's history becomes `Remember` of the old one |
| Memory.MemoryAgent.GetMemory | src/agents/memory_agent.py:43-77 | a failing storage call gives []; otherwise exactly `Relevant` of the chat's history |
| Memory.UserEntries | src/agents/memory_agent.py:56-60 | the forward loop collects exactly the user entries, in order |
| Memory.LastAssistant | src/agents/memory_agent.py:63-67 | the backward loop with `break` finds the last assistant entry, or none |

## Left out

- PDF decoding (`pdfplumber`), file I/O, `os.stat` and reading the file: a page is given as its characters, text, annotation URIs and raw tables, and the file as its name, path, size and MD5.
- `_compute_file_hash`, `_hash_text` and `_extract_pdf_metadata` are not separate members: MD5 is a parameter, and the PDF information entries are a `PdfInfo` value copied into the metadata.
- The URL regex, `urlparse(..).netloc`, `langdetect`, tiktoken, `json.dumps`, `SequenceMatcher.ratio` and the OpenAI embedding call are parameters. Their own behaviour is not modelled.
- Loader.AttachDomainLinks: pass 2 visits the URIs in the set's order, which Python leaves open; the model chooses an order and proves the result for any order.
- `list(set(...))` orders elements as Python's set iteration happens to. The model fixes first-occurrence order.
- The JSON round trip the chunker relies on (`json.loads(json.dumps(x))`) is taken to give `x` back.
- Every metadata block has a "document_title" and a "file_hash" key, as `load_pdf` always writes them. A block without them is not modelled, so the defaults "Unknown_Title", "Unknown_Hash" and the embedder's keep-the-old-title default are never taken; a null title is modelled.
- Sizes and positions are exact decimals, not binary doubles. Python's `round(x, 1)` and `round(x, 2)` round the nearest double, so at a decimal tie they can go the other way. For example, `round(12.35, 1)` is 12.3, where the model gives 12.4, and `round(12.345, 2)` is 12.35, where the model gives 12.34. The float error of differences, sums and products that land exactly on a threshold is not modelled either. The thresholds are ±epsilon, 0.2 pt, ×1.5 and ×2. The members below are exact for values away from these boundaries.
- Loader.RoundedTops: each `round(top, 1)` key is rounded exactly, so a `top` at a decimal tie can get the neighbouring key.
- Loader.StartsIff: `abs(y - prev_y) > prev_size * 1.5` and `abs(size - prev_size) > 0.2` are compared exactly. For example, `abs(10.3 - 10.1) > 0.2` holds in Python, which opens a new paragraph, while the model merges the line.
- FontStats.CountSizesSpec: each `round(font_size, 2)` key is rounded exactly, so a size at a decimal tie can be counted under the neighbouring size.
- Headings.CollectHeadingSizes: `size > main + epsilon` is compared exactly. For example, with main 5.01 and size 5.11 Python collects the size, while the model does not.
- Headings.ClassifySpec: the three epsilon tests (`> main + epsilon`, `abs(size - main) <= epsilon`, `< main - epsilon`) are compared exactly, so a size exactly epsilon from main can take a different branch than in Python.
- Headers.ScanStops: `abs(y_pos - last_y) > size * merge_threshold_factor` is compared exactly, so a gap exactly at the threshold can stop the scan where Python continues, or the reverse.
- Captions.CaptionsAt: `y_distance > font_size * merge_threshold_factor` is compared exactly, with the same boundary difference.
- Loader.DomainOf: `str.lower()` is modelled for the capitals of ASCII and Latin-1 only; other Unicode capitals are kept, and case mappings that change a string's length are not modelled.
- Loader.AnyTokenIn: lowers text and pieces with the same ASCII and Latin-1 `lower()`, so a match that needs another Unicode case mapping is missed.
- Loader.TextMatchesDomain: lowers the text with the same ASCII and Latin-1 `lower()`, so a match that needs another Unicode case mapping is missed.
- Headings.ClassifySpec: `\d` in `[\d]+[.)]?` is modelled as '0' to '9'; Python also matches other Unicode decimal digits, such as "١٢٣٤", which the model treats as heading text.
- Preprocessing.PdfPreprocessor.DetectPseudoTables: the `pseudo_tables_per_page` list that `_detect_pseudo_tables` returns is not built, because `run_preprocessing` discards it.
- `_similarity` and `get_metadata` are not separate members: the similarity ratio is a parameter, and the metadata is a field of the document value.
- Chunking.PdfChunker.constructor: `max_chunk_length` must be positive, which the source does not check; with 0 its split loop does not terminate.
- Embedding.PdfEmbedder.ProcessJson: the generator's yields and progress messages are collapsed into the returned list or the exception that ends the run.
- Embedding.PdfEmbedder.constructor: the OpenAI client object is not modelled. The ValueError for a missing key is `NewPdfEmbedder`.
- The embedder pops the four lists from the caller's metadata dict in place. The model returns the reduced copy and leaves its input unchanged.
- The FAISS index is abstract:
  - the model records whether there is one;
  - a search is given the positions and distances the index answers with;
  - dimension checks, `save_index`/`load_index` file I/O and the exceptions FAISS itself raises are left out.
- Memory.MemoryAgent.AddToMemory: whether a storage call raises is a boolean parameter. The Redis-backed storage is a map, and its own trimming in `src/memory/memory.py:68-70` is not part of this model.
- The `SentenceTransformer` model the memory agent loads is never used by the modelled methods and is left out.
- Uniqueness of chunk ids across a document is not proved: equal paragraphs on a page already share one id.
