# mergewise context retrieval and review rendering, in Dafny

mergewise reviews GitHub pull requests with a language model. This project
models the parts of it that decide what the model sees and what the reviewer
posts back:

- **The repository-context pipeline.** `RepositoryContextService` picks which
  files of the base commit to index. It chunks them (fixed windows for
  documents, one piece per top-level definition for Python, marker-delimited
  blocks for other code) and embeds the chunks in batches. It keeps them in a
  vector store tagged with the base commit, and brings that store up to date
  for each pull request. For every changed file it answers a retrieval request
  with formatted context blocks. The reranker can reorder the similarity
  shortlist.
- **The older copy of the pipeline.** `RepoContextProvider` in `src/context.py`
  is the same design driven by environment settings. It is modelled as well,
  and its differences from the package version are proved as lemmas:
  - empty-text chunking;
  - which paths count as documents;
  - the wider trim of retrieved blocks.
- **The review helpers.**
  - The unified-diff splitter (`DiffParser.split`).
  - The review driver that caps the number of files and assembles the
    result.
  - The validators of the review models.
  - The markdown renderer of the pull-request comment.

The modules follow the source:

| module | source |
|---|---|
| `Maybe` | `Option` and `Result` |
| `PyText` | the Python `str` and list operations the source relies on: `strip`, `upper`, `splitlines`, `join`, slicing with negative bounds, `str(int)` |
| `StableSort` | `list.sort(key=..., reverse=True)`, a stable sort by a descending key |
| `VectorStore` | `JsonVectorStore` of `src/context_store.py`, as a class over its document list, path index and metadata |
| `Chunking`, `ChunkPieces`, `ChunkWindows`, `ChunkSymbols`, `ChunkMarkers` | `ContextChunker` of `src/context/chunking.py` |
| `Reranking` | the two `OpenAIReranker` copies |
| `IndexState`, `PathSelection`, `Ingestion`, `Retrieval`, `ContextBlocks`, `ContextService` | `src/context/service.py` |
| `LegacyContext` | `src/context.py` |
| `Reviewer` | `src/reviewer.py` |
| `ReviewModels` | `src/review_models.py` |
| `Markdown` | `src/utils.py` |

The code that works step by step is written as methods with loops and
invariants. Each method is proved equal to a function that states the same
result by recursion, and the properties are proved about those functions. This
covers:

- the chunkers;
- the path selection;
- the ingestion loop;
- the batched embedding;
- the diff splitter;
- the renderer.

`JsonVectorStore`, `RepositoryContextService` and `RepoContextProvider` update
their fields in place, so they are classes.

Everything the pipeline reaches outside itself is a parameter:

- the GitHub tree listing and file contents at the base commit;
- the embedding endpoint;
- the similarity of a document to a query embedding (an integer score that
  stands for the cosine similarity);
- the reranker's parsed answer;
- `ast.parse` (a `PyParse` value);
- the marker regular expression (a predicate);
- the per-file language-model review.

Where the documentation and the code differ, the model follows the code:

- `src/context/service.py` stores its chunks in a FAISS store. That store is
  not part of this model; `JsonVectorStore`, whose methods the service calls
  by the same names, stands in for it.
- The `VectorDocument` that the service builds carries start line, end line
  and a symbol label, which the dataclass in `src/context_store.py` lacks.
  The model's `VectorDocument` carries them.
- Constructing a `FindingModel` normalises the severity to one of `BLOCKER`,
  `WARNING` or `NIT`, and anything else is rejected. The renderer still counts
  levels by exact string, and for validated findings the two agree
  (`CountLevelValid`).

## Model

| member | source | states |
|---|---|---|
| Markdown.Truncate | src/utils.py:16-17 | a string that fits is unchanged; a longer one keeps its first n-1 characters, ends in the ellipsis and is exactly n long |
| Markdown.TruncateIdempotent | src/utils.py:16-17 | truncating twice to the same bound gives the same text as once |
| Markdown.SafeCode | src/utils.py:19-23 | the result is empty exactly for `None` or empty input, text without three backticks in a row is kept, and no line of the result can close the code block the patch is placed in (at most three spaces, then three backticks) |
| Markdown.ReplaceFencesKeepsFenceless | src/utils.py:23 | the single-pass replacement leaves text without three backticks in a row unchanged |
| Markdown.FenceFollowsBreak | src/utils.py:23 | three backticks can remain after the replacement, but each such run directly follows the two backticks and space of a replaced run |
| Markdown.ReplaceFencesClosesNothing | src/utils.py:19-23 | after the replacement no line starts with at most three spaces followed by three backticks |
| Markdown.SafeCodeSixBackticks | src/utils.py:19-23 | six backticks become two backticks, a space, four backticks, a space and a backtick; the three backticks left sit mid-line and close nothing |
| Markdown.SafeCodeFiveBackticks | src/utils.py:19-23 | five backticks become two backticks, a space and three backticks |
| Markdown.CountLevel | src/utils.py:7-8 | a level count never exceeds the number of findings |
| Markdown.CountLevelValid | src/utils.py:7-12 | on validated findings the renderer's count of a level equals the model's severity count |
| Markdown.FilesWithIssuesSpec | src/utils.py:38 | the files with issues are exactly the files with at least one finding, keep all findings, and are empty exactly when no file has one |
| Markdown.IssuesKeepFindings | src/utils.py:38 | dropping files without findings loses no finding |
| Markdown.IndexLinesAt | src/utils.py:41-44 | the index has one line per file with issues, in order, and line k is the entry of file k |
| Markdown.IssuesIndex | src/utils.py:37-46 | when some file has findings, the index follows the four-line header: opening tag, one line per file with issues in order, closing tag |
| Markdown.RenderIndex | src/utils.py:39-46 | the loop builds exactly the index section: opening tag, one line per file, closing tag |
| Markdown.RenderSections | src/utils.py:48-74 | the loop fails exactly when some finding's rationale or recommendation is `None`; otherwise it yields the sections of all files with issues |
| Markdown.RenderFileSection | src/utils.py:49-74 | a file section fails exactly when one of its findings has a `None` rationale or recommendation; otherwise it is heading, summary and findings |
| Markdown.RenderFindings | src/utils.py:55-73 | the loop over findings fails exactly when one of them would raise, and otherwise yields their lines in order |
| Markdown.RenderFinding | src/utils.py:56-73 | one finding fails exactly when its rationale or recommendation is `None`, and otherwise yields its headline, lines, rationale, recommendation and code block |
| Markdown.NoIssuesComment | src/utils.py:77-78 | a result without findings never raises, and its comment is the header followed by the no-issues line |
| Markdown.Finish | src/utils.py:81-82 | the finished comment is at most 18000 characters, and a stripped text that fits is returned whole |
| Markdown.RenderMarkdownComment | src/utils.py:4-82 | rendering fails exactly when a finding's rationale or recommendation is `None`; otherwise it returns the comment, at most 18000 characters |
| Markdown.AnyStripsNoneSpec | src/utils.py:59-62 | the renderer raises on a list of findings exactly when one of them has a `None` rationale or recommendation |
| Markdown.AnyStripsNoneAppend | src/utils.py:59-62 | raising on a concatenation is raising on either part |
| Reviewer.SplitParts | src/reviewer.py:59 | splitting on the `diff --git ` marker always yields at least one part |
| Reviewer.SplitPartsJoin | src/reviewer.py:59 | joining the parts back with the marker gives the original diff |
| Reviewer.BlankHasNoMarker | src/reviewer.py:59-63 | a blank diff splits into itself alone |
| Reviewer.HeaderPathOfGitHeader | src/reviewer.py:64-66 | for a header `a/<p> b/<q>`, the path taken is `q` |
| Reviewer.ChunkOf | src/reviewer.py:64-67 | a chunk's diff text starts with the marker, and its path is the one named in its first line |
| Reviewer.ChunksOfSpec | src/reviewer.py:61-68 | there are never more chunks than parts, and every chunk starts with the marker |
| Reviewer.ChunksOfBlank | src/reviewer.py:61-63 | no chunk comes out exactly when every part is blank |
| Reviewer.BlankDiffHasNoChunks | src/reviewer.py:58-69 | a blank diff yields no chunks |
| Reviewer.Split | src/reviewer.py:58-69 | the loop computes the chunk list of the diff, and every chunk starts with the marker |
| Reviewer.DiffsByPathSpec | src/reviewer.py:120 | a path has a per-file diff exactly when some chunk names it, and its diff is the last such chunk's |
| Reviewer.SummaryCountsAddUp | src/reviewer.py:221-232 | on validated findings, blockers, warnings and nits in the summary add up to the findings total |
| Reviewer.ReviewOutcome | src/reviewer.py:110-161 | an empty diff gives the no-diff result; otherwise one review per chunk up to the file cap, in chunk order, the summary of those reviews, the per-file diffs of the reviewed chunks, and a total equal to their findings |
| Reviewer.Review | src/reviewer.py:85-161 | the driver returns the outcome for the diff's chunks, the no-diff result for a blank diff, and never more files than the cap |
| ReviewModels.NormalizeSeverity | src/review_models.py:17-23 | a given value is accepted exactly when its stripped, upper-cased form is `BLOCKER`, `WARNING` or `NIT`, and that form is what comes back; a missing or blank value is rejected |
| ReviewModels.NormalizeAnySpelling | src/review_models.py:19-23 | a severity spelt in any letter case and padded with whitespace on either side normalises to that severity |
| ReviewModels.NormalizeRejectsCritical | tests/test_review_models.py:6-8 | `CRITICAL` is rejected |
| ReviewModels.NormalizeAccepts | src/review_models.py:19-23 | every valid severity token is accepted unchanged |
| ReviewModels.NormalizeIdempotent | src/review_models.py:19-23 | normalising an accepted severity again gives the same severity |
| ReviewModels.CoerceLines | src/review_models.py:25-30 | `lines` stays absent exactly when absent, text is kept, and a number becomes its `str`, the non-empty decimal text `IntToStr` gives |
| ReviewModels.CoerceLinesIdempotent | src/review_models.py:25-30 | coercing a coerced value again changes nothing |
| ReviewModels.NewFinding | src/review_models.py:8-30 | a finding is built exactly when its severity normalises; it then carries the normalised severity, the coerced `lines`, and the title, anchor, rationale, recommendation and patch as given |
| ReviewModels.TotalIsAllFindings | src/review_models.py:45-51 | the findings total is the length of all findings of all files |
| ReviewModels.EnsureConsistentTotal | src/review_models.py:45-51 | the validated total is the number of findings across files, whatever was supplied, and is zero exactly when no file has findings |
| ReviewModels.NewReviewResult | src/review_models.py:39-51 | the result keeps summary, files and per-file diffs, and its total is the number of findings |
| ReviewModels.SeverityCountsPartition | src/review_models.py:17-23 | validated findings split into blockers, warnings and nits with nothing left over |
| Chunking.Suffix | src/context/chunking.py:80 | a suffix is empty or a dot followed by at least one character with no further dot or slash |
| Chunking.IsDocumentPath | src/context/chunking.py:83-87 | a document path is an interesting path that is a README/CONTRIBUTING file or has a document extension |
| Chunking.IsCodePath | src/context/chunking.py:89-91 | a code path is interesting and never has a document extension |
| Chunking.ExtensionsDisjoint | src/context/chunking.py:9-38 | no extension is both a document and a code extension |
| Chunking.StrategyFor | src/context/chunking.py:94-102 | non-code paths and READMEs get fixed windows; other code paths get the Python or the marker strategy by extension |
| Chunking.Chunk | src/context/chunking.py:94-102 | the dispatcher returns the chunks of the chosen strategy, and always at least one |
| ChunkWindows.Step | src/context/chunking.py:173 | the window step is at least one |
| ChunkWindows.ChunkText | src/context/chunking.py:168-178 | the sliding-window loop returns the specified windows, and always at least one chunk |
| ChunkWindows.SlideWindows | src/context/chunking.py:172-177 | the loop yields exactly the windows from offset 0 |
| ChunkWindows.AddWindow | src/context/chunking.py:174-177 | one step appends the window at the current offset and moves on by the step |
| ChunkWindows.WindowText | src/context/chunking.py:175-176 | a window is non-empty, at most max_chars long, and lies inside the text |
| ChunkWindows.WindowsCover | src/context/chunking.py:174-177 | when the step is at most max_chars, every character from the start offset lies in some window, at its position |
| ChunkWindows.ChunkTextShort | src/context/chunking.py:168-171 | text that fits gives itself as the only chunk |
| ChunkWindows.ChunkTextCount | src/context/chunking.py:172-178 | longer text gives n windows with (n-1)*step < length <= n*step |
| ChunkWindows.ChunkTextWindows | src/context/chunking.py:172-177 | chunk i is the window that starts at i*step |
| ChunkWindows.ChunkTextCovers | src/context/chunking.py:172-178 | every character of the normalised text lies in some chunk, at its position |
| ChunkWindows.ChunkDocument | src/context/chunking.py:105-107 | a document becomes the pieces of its window chunks, always at least one |
| ChunkPieces.SliceLinesNonBlank | src/context/chunking.py:181-184 | a clamped line slice is non-blank exactly when one of its lines is |
| ChunkPieces.SliceLinesHolds | src/context/chunking.py:181-184 | a slice that includes a non-blank line is non-blank |
| ChunkPieces.SlicerSeesLines | src/context/chunking.py:181-184 | the line slicer used by both code chunkers sees every non-blank line it spans |
| ChunkSymbols.ChunkPythonAst | src/context/chunking.py:109-143 | the symbol chunker returns the specified pieces, and always at least one |
| ChunkSymbols.CollectSegments | src/context/chunking.py:116-125 | the loop collects one segment per top-level function or class, with its lines and label |
| ChunkSymbols.StitchSegments | src/context/chunking.py:128-142 | the loop stitches gaps, definitions and the tail into the specified pieces |
| ChunkSymbols.AppendGap | src/context/chunking.py:131-134 | a non-blank gap before a definition becomes a `module` piece |
| ChunkSymbols.AppendBody | src/context/chunking.py:135-137 | a non-blank definition becomes a piece with its range and label |
| ChunkSymbols.AppendTail | src/context/chunking.py:139-142 | a non-blank tail after the last definition becomes a `module` piece |
| ChunkSymbols.StitchInOrder | src/context/chunking.py:127-143 | stitched pieces are in line order and never overlap |
| ChunkSymbols.StitchCovers | src/context/chunking.py:128-142 | every non-blank line of the file lies in some stitched piece |
| ChunkSymbols.StitchLabels | src/context/chunking.py:128-142 | every stitched piece is labelled `module` or carries its definition's label |
| ChunkSymbols.StitchKeepsSegments | src/context/chunking.py:135-137 | every non-blank definition appears as a piece of its own |
| ChunkSymbols.SortKeepsModuleOrder | src/context/chunking.py:127 | sorting segments by start line keeps a parsed module's order |
| ChunkSymbols.SymbolPiecesInOrder | src/context/chunking.py:109-143 | pieces of a parsed module are in line order, or the whole text is one piece |
| ChunkSymbols.SymbolPiecesCover | src/context/chunking.py:109-143 | every non-blank line lies in some piece |
| ChunkSymbols.SymbolPiecesKeepDefinitions | src/context/chunking.py:115-143 | every non-blank top-level definition becomes its own piece with its range and label |
| ChunkSymbols.SymbolPiecesSyntaxError | src/context/chunking.py:110-113 | text that does not parse becomes one whole piece |
| ChunkMarkers.ChunkGenericCode | src/context/chunking.py:145-165 | the marker chunker returns the specified pieces, and always at least one |
| ChunkMarkers.Preamble | src/context/chunking.py:155-158 | non-blank lines before the first marker become one piece of kind `module`, starting at line 1; blank ones give no piece |
| ChunkMarkers.CollectMarkers | src/context/chunking.py:147-150 | the loop collects every marker line, in order, with its stripped text |
| ChunkMarkers.MarkerBlocks | src/context/chunking.py:159-164 | the loop yields the blocks from each marker to the next |
| ChunkMarkers.AppendBlock | src/context/chunking.py:160-164 | one step appends the block of marker k when it is non-blank |
| ChunkMarkers.MarkersWithin | src/context/chunking.py:147-150 | every collected marker names a line of the file that matches |
| ChunkMarkers.MarkersText | src/context/chunking.py:148-150 | every marker carries its line's name |
| ChunkMarkers.MarkersComplete | src/context/chunking.py:148-150 | every matching line is collected |
| ChunkMarkers.MarkersAscending | src/context/chunking.py:148-150 | markers come in strictly increasing line order |
| ChunkMarkers.BlockBounds | src/context/chunking.py:159-160 | block k runs from its marker line to just before the next marker, or to the last line |
| ChunkMarkers.BlocksInOrder | src/context/chunking.py:159-164 | blocks are in line order and never overlap |
| ChunkMarkers.BlocksCover | src/context/chunking.py:159-164 | every non-blank line from the first marker on lies in some block |
| ChunkMarkers.MarkerPiecesKeepBlocks | src/context/chunking.py:159-164 | every non-blank block is a piece with its range and its stripped declaration label |
| ChunkMarkers.MarkedInOrderAndCovering | src/context/chunking.py:154-164 | preamble and blocks together are in order and cover every non-blank line |
| ChunkMarkers.MarkerPiecesInOrderAndCovering | src/context/chunking.py:145-165 | with at least one marker, the pieces are in order and cover every non-blank line |
| ChunkMarkers.MarkerPiecesWithoutMarkers | src/context/chunking.py:151-152 | text without markers becomes one whole piece |
| VectorStore.JsonVectorStore.constructor | src/context_store.py:23-28 | a new store is empty, with no metadata |
| VectorStore.JsonVectorStore.Load | src/context_store.py:31-50 | loading takes the stored documents and metadata, or leaves the store empty when there is no file |
| VectorStore.JsonVectorStore.SetDocuments | src/context_store.py:68-72 | the documents are replaced, the path index rebuilt to match, and the metadata kept |
| VectorStore.JsonVectorStore.ReplaceAll | src/context_store.py:74-78 | documents replaced; metadata replaced when given, kept otherwise |
| VectorStore.JsonVectorStore.AddDocuments | src/context_store.py:80-83 | the new documents are appended in order, the index kept in step, the metadata kept |
| VectorStore.JsonVectorStore.AddDocument | src/context_store.py:81-83 | one document appended and indexed under its path |
| VectorStore.JsonVectorStore.HasPath | src/context_store.py:85-86 | true exactly when some stored document has that path |
| VectorStore.JsonVectorStore.DocumentsForPath | src/context_store.py:88-89 | the stored documents of that path, in insertion order |
| VectorStore.JsonVectorStore.Documents | src/context_store.py:91-93 | all stored documents |
| VectorStore.JsonVectorStore.SimilaritySearch | src/context_store.py:96-104 | the top-k documents by similarity, and nothing for an empty store |
| VectorStore.PathIndexSpec | src/context_store.py:68-72 | the path index holds exactly the paths with documents, each with its documents in order |
| VectorStore.PathIndexLookup | src/context_store.py:88-89 | looking a path up gives its documents in order |
| VectorStore.PathIndexKeys | src/context_store.py:85-86 | a path is a key exactly when its list is non-empty |
| VectorStore.WithPathEmpty | src/context_store.py:85-86 | a path has no documents exactly when no document names it |
| VectorStore.PathIndexAppend | src/context_store.py:83 | indexing one more document extends only its path's list |
| VectorStore.TopKBest | src/context_store.py:99-104 | for k >= 0: min(k, n) documents of the store, in non-increasing similarity, none scoring below a document left out |
| StableSort.SortDescSortedPermutation | src/context_store.py:103 | the sort yields a descending permutation of its input |
| StableSort.SortDescStable | src/context_store.py:103 | elements with equal keys keep their relative order |
| StableSort.SortDescOfSorted | src/context_store.py:103 | an already descending list is left unchanged |
| StableSort.SortedPrefixBest | src/context_store.py:103-104 | a prefix of a descending list holds its best elements |
| Reranking.Rerank | src/context/reranking.py:35-96 | the reranker returns the specified order; an empty or short candidate list comes back unchanged, and a failed call falls back to the first k |
| Reranking.LegacyRerank | src/reranker.py:28-94 | the older reranker computes the same order, and an empty list for no candidates |
| Reranking.DocMapSpec | src/context/reranking.py:76 | the id map only maps an id to a candidate with that id |
| Reranking.MergedSpec | src/context/reranking.py:77-89 | ranked entries become scored candidates, at most once per id, skipping unknown ids |
| Reranking.UnrankedSpec | src/context/reranking.py:91-93 | candidates the model skipped are appended with score 0, once each |
| Reranking.UnrankedFrom | src/context/reranking.py:91-93 | the appended candidates, at score 0, are exactly the candidates whose id was not taken, at strictly increasing positions of the candidate list |
| Reranking.CombinedUniqueIds | src/context/reranking.py:74-93 | the merged list never repeats a document |
| Reranking.CombinedOnlyCandidates | src/context/reranking.py:74-93 | the merged list holds only candidates |
| Reranking.CombinedPermutation | src/context/reranking.py:74-93 | the merged list is a permutation of the candidates |
| Reranking.CombinedHasCandidate | src/context/reranking.py:88-93 | every candidate appears in the merged list |
| Reranking.SortKeepsDocs | src/context/reranking.py:95 | sorting by score keeps the same documents |
| Reranking.RerankTopK | src/context/reranking.py:95-96 | with more candidates than k, the answer is exactly k distinct candidates |
| Reranking.RerankOrdered | src/context/reranking.py:95-96 | with more candidates than k and a well-formed ranking, the answer is the first k of the scored list sorted by score: non-increasing in score, no scored candidate left out outscores a returned one, and equal scores keep their merged order |
| Reranking.RerankDrawsFromCandidates | src/context/reranking.py:35-96 | every returned document is a candidate, and there are at most k |
| Reranking.RerankExample | tests/test_reranking.py:24-35 | ranking b at 5 and c at 3 out of a, b, c with k = 2 gives b then c |
| Reranking.ExampleCombined | tests/test_reranking.py:24-35 | in that example the scored list is b at 5, c at 3, then a at 0 |
| IndexState.IndexMetadata | src/context/service.py:116-120 | the index metadata records the commit, owner and repository, and reads back the commit |
| IndexState.MissingSpec | src/context/service.py:74 | the missing paths are exactly the targets without stored documents |
| IndexState.NothingMissing | src/context/service.py:74-75 | nothing is missing once every target has documents |
| PathSelection.SelectPaths | src/context/service.py:187-217 | the selection loop computes the specified path list |
| PathSelection.SelectionShape | src/context/service.py:187-217 | targets come first and in order; the rest are interesting non-target paths, documents before code, within the file cap |
| PathSelection.SplitTree | src/context/service.py:195-208 | the tree walk splits eligible paths into documents and code, in tree order |
| PathSelection.KeptEligible | src/context/service.py:195-208 | every kept path comes from an eligible tree entry of the right kind |
| PathSelection.KeptComplete | src/context/service.py:195-208 | every eligible tree entry of the right kind is kept |
| PathSelection.AppendCapped | src/context/service.py:209-216 | paths are appended until the cap is reached |
| PathSelection.SelectionComplete | src/context/service.py:209-217 | when the cap is not reached, every eligible path is selected |
| ContextService.RepositoryContextService.constructor | src/context/service.py:31-58 | the service keeps its settings, uses the chunker it is given or else builds the package chunker, enables reranking when asked, and loads the stored index |
| ContextService.RepositoryContextService.EnsureIndex | src/context/service.py:61-82 | disabled: nothing changes; on another commit, rebuild from the selected paths; on the same commit, append the missing targets' documents; afterwards the index records the base commit |
| ContextService.RepositoryContextService.MissingPaths | src/context/service.py:74 | the targets without documents in the store |
| ContextService.RepositoryContextService.RebuildIndex | src/context/service.py:111-121 | the store becomes the ingested selection, tagged with the base commit |
| ContextService.RepositoryContextService.IngestAdditionalPaths | src/context/service.py:123-129 | the ingested documents of the paths are appended and the metadata kept |
| ContextService.RepositoryContextService.RetrieveContext | src/context/service.py:85-108 | the blocks specified for the request from the current store |
| ContextService.RetrievedFromStore | src/context/service.py:85-108 | retrieved blocks format stored documents, at most top-k of them |
| Retrieval.EmbedOne | src/context/service.py:92 | the query is embedded in one request |
| Retrieval.ChosenFromStore | src/context/service.py:94-106 | chosen documents come from the store, at most top-k |
| Retrieval.ChosenBySimilarity | src/context/service.py:94-106 | without a reranker answer the choice is the top-k by similarity |
| ContextBlocks.TrimSpec | src/context/service.py:252-256 | a fitting text is only stripped; a longer one keeps a prefix and ends in `...`, exactly max_chars long when max_chars >= 3 |
| ContextBlocks.TrimIdempotent | src/context/service.py:252-256 | trimming twice is trimming once |
| ContextBlocks.TrimNonBlank | src/context/service.py:252-256 | trimming keeps non-blank text non-blank |
| ContextBlocks.Location | src/context/service.py:258-263 | the location is exactly the path, then `:start` when the start is known, then `-end` when there is a distinct non-zero end |
| ContextBlocks.FormatContextBlock | src/context/service.py:258-267 | a block is exactly `[Source: location]`, then ` (label)` when the label is non-empty, then a newline and the content |
| ContextBlocks.FormattedBlocks | src/context/service.py:108 | one block per document |
| Ingestion.ChunkIdInjective | src/context/service.py:145 | distinct (path, index) pairs give distinct chunk ids |
| Ingestion.CrossFileIds | src/context/service.py:145 | ids of different files never collide |
| Ingestion.FileDocuments | src/context/service.py:141-158 | the per-file loop yields the specified documents |
| Ingestion.AddPiece | src/context/service.py:142-158 | one step adds a document for a non-blank piece and skips a blank one |
| Ingestion.FileDocOrigin | src/context/service.py:141-158 | every document comes from a non-blank piece of the file, with its index |
| Ingestion.FileDocsComplete | src/context/service.py:141-158 | every non-blank piece yields a document |
| Ingestion.FileDocsUnique | src/context/service.py:141-145 | document ids of one file are distinct |
| Ingestion.Embed | src/context/service.py:243-250 | the batching loop computes the embeddings of all texts |
| Ingestion.EmbedAllLength | src/context/service.py:243-250 | an embedder that answers each batch in full yields one embedding per text |
| Ingestion.BatchesCover | src/context/service.py:246-247 | batches are non-empty, at most the batch size, full except the last, and concatenate to the input |
| Ingestion.WithEmbeddings | src/context/service.py:162-163 | attaching embeddings keeps one document per document |
| Ingestion.AttachEmbeddings | src/context/service.py:162-163 | the loop attaches the embeddings pairwise |
| Ingestion.IngestPaths | src/context/service.py:132-171 | the ingestion method computes the specified documents |
| Ingestion.IngestedDocs | src/context/service.py:132-171 | ingested documents come from fetched paths, are non-blank and trimmed, all carry embeddings when the embedder answers in full, and have distinct ids for distinct paths |
| Ingestion.CollectDocuments | src/context/service.py:136-158 | the path loop collects every file's documents and their texts |
| Ingestion.IngestPath | src/context/service.py:136-158 | one step adds one path's documents, or none when the fetch fails |
| Ingestion.PathsDocOrigin | src/context/service.py:136-158 | every document comes from a fetched path's non-blank piece |
| Ingestion.PathsDocsUnique | src/context/service.py:136-158 | ids are distinct across all files when paths are |
| LegacyContext.LegacyChunkText | src/context.py:100-112 | the older window chunker returns the specified windows |
| LegacyContext.LegacyChunkTextAgrees | src/context.py:100-112 | the older chunker agrees with the package one except on empty text, where it returns nothing |
| LegacyContext.LegacyWindowPieces | src/context.py:186-190 | the older window fallback yields at least one piece |
| LegacyContext.LegacyChunkFile | src/context.py:184-198 | the older file chunker returns the specified pieces, at least one |
| LegacyContext.LegacyChunkFileAgrees | src/context.py:184-198 | the older file chunker gives the same pieces as the package chunker |
| LegacyContext.LegacyDocumentIsDocument | src/context.py:378-382 | every path the older test calls a document, the package calls one too |
| LegacyContext.LegacyDocumentDiffers | src/context.py:378-382 | the two tests differ exactly on CONTRIBUTING paths without a document extension that do not start with README |
| LegacyContext.SelectionOfTwo | src/context.py:360-391 | with room for one of two eligible paths, the first document wins, else the first path |
| LegacyContext.DocumentOrderDiffers | src/context.py:360-391 | such a CONTRIBUTING file is chosen by the package, a code file by the older copy |
| LegacyContext.TrimmedBlocks | src/context.py:278-281 | one trimmed block per document |
| LegacyContext.LegacyRetrievedBounds | src/context.py:252-282 | retrieved blocks are trimmed stored documents, at most top-k, each within the wider limit |
| LegacyContext.RepoContextProvider.constructor | src/context.py:220-230 | the provider keeps its settings and loads the stored index |
| LegacyContext.RepoContextProvider.EnsureIndex | src/context.py:233-249 | as the package service, with the older selection and chunker |
| LegacyContext.RepoContextProvider.MissingPaths | src/context.py:241 | the targets without documents in the store |
| LegacyContext.RepoContextProvider.RebuildIndex | src/context.py:285-295 | the store becomes the ingested older selection, tagged with the base commit |
| LegacyContext.RepoContextProvider.IngestAdditionalPaths | src/context.py:297-304 | the paths' documents are appended and the metadata kept |
| LegacyContext.RepoContextProvider.RetrieveContext | src/context.py:252-282 | the blocks specified for the request from the current store |

## Left out

- Network access is given as values: the GitHub tree listing, file fetching, base64 decoding and access tokens become the `Repository` value (tree and `fetch`).
- The OpenAI calls become the parameters `embed`, `ranking` and `reviewFile`. The per-file review prompt (`_review_single_file_async`) is not part of this model.
- The context wiring inside `review_async` is folded into `reviewFile`. That covers `ensure_index` on the selected paths and the per-file `retrieve_context`, each of which falls back to no context when it raises.
- The async fan-out of `review_async` runs the per-file reviews concurrently. The model reviews them in chunk order, which matches the order in which the results are collected. Logging is left out.
- Cosine similarity on floats is replaced by an integer score function. The reranker's `float(score)` parsing is replaced by an integer score in each ranking entry.
- `ast.parse` becomes a `PyParse` value. The declaration regular expression becomes an `isMarker` predicate.
- `JsonVectorStore.persist` and the JSON file reading in `load` are left out. `Load` takes the already decoded value. The copy that `documents` returns needs no model, since sequences are values.
- FaissVectorStore is not part of this model. `JsonVectorStore` stands in for the service's store.
- Configuration and environment parsing (`ContextConfig`, `ReviewConfig.from_settings`, the `CONTEXT_*` variables) are left out. Their values are parameters.
- Ingestion.Embed: requires a batch size of at least one. With step 0 Python's `range` raises `ValueError`, and with a negative size it is empty, so the source gives no embeddings. Both call sites pass 32.
- ContextService.RepositoryContextService.RetrieveContext: a reranker passed to the constructor can be any object with a `rerank` method, and the service returns whatever it answers. The model applies `OpenAIReranker`'s merge to every reranker, passed in or not. So ContextService.RetrievedFromStore's promise (only stored documents, at most `top_k`) covers the rerankers the program builds itself, and not an arbitrary one passed in. No caller in the repository passes one.
- `upper()` and `lower()` are modelled for ASCII letters only.
- ReviewModels.CoerceLines: only text and integer values of `lines` are modelled. Python's `str(value)` also accepts a float, a bool, a list or any other object, and those inputs are not represented.
- Markdown.RenderMarkdownComment: raising `AttributeError` on a `None` rationale or recommendation is modelled as an error result, and any partial output is discarded.
- Reranking.Rerank: a ranking answer that is not a list of objects raises in the source and is caught by the caller. It is modelled as the `Malformed` case, which gives no result.
- Python's exceptions from the embedder (an empty answer for the query) are modelled as `None` from `RetrieveContext`.
