/**
  `RepoContextProvider` and the module-level helpers of `src/context.py`, the
  older copy of the context pipeline. Its settings come from environment
  variables instead of a `ContextConfig`; the overlap (200) and the embedding
  batch size (32) are constants.

  It shares the symbol and marker chunkers, `_trim`, `_format_context_block`,
  `_is_interesting_path` and the reranker merge with the package version, and
  differs in three places:
  - `_chunk_text` returns `[]` for empty text and has no `or [cleaned]`
    fallback; `_chunk_file` falls back to `[text]` instead;
  - `_select_paths` counts a path as a document by its extension or a
    `README` prefix only, so a `CONTRIBUTING` file without a document
    extension is listed with the code paths;
  - `retrieve_context` trims every block to `CONTEXT_MAX_CHARS_PER_CHUNK + 200`.
*/
module LegacyContext {
  import opened Maybe
  import opened PyText
  import opened ChunkPieces
  import opened ChunkWindows
  import opened ChunkSymbols
  import opened ChunkMarkers
  import opened Chunking
  import opened VectorStore
  import opened Reranking
  import opened ContextBlocks
  import opened PathSelection
  import opened Ingestion
  import opened Retrieval
  import opened IndexState

  const EmbedBatchSize: nat := 32
  const TextChunkOverlap: int := 200

  /** The `CONTEXT_*` and `ENABLE_CONTEXT_INDEXING` settings the provider reads. */
  datatype Settings = Settings(
    indexingEnabled: bool,
    maxCharsPerChunk: int,
    maxFileBytes: int,
    maxFiles: int,
    topK: int,
    retrievalCandidates: int,
    enableReranker: bool)

  // ---------------------------------------------------------------------------
  // Chunking

  /** What the legacy `_chunk_text` returns. */
  function LegacyChunkTextSpec(text: string, maxChars: int, overlap: int): seq<string> {
    if text == [] then []
    else
      var cleaned := ReplaceCrlf(text);
      if |cleaned| <= maxChars then [cleaned]
      else Windows(cleaned, maxChars, Step(maxChars, overlap), 0)
  }

  /** The legacy `_chunk_text`. */
  method LegacyChunkText(text: string, maxChars: int, overlap: int) returns (chunks: seq<string>)
    ensures chunks == LegacyChunkTextSpec(text, maxChars, overlap)
  {
    if text == [] {
      return [];
    }
    var cleaned := ReplaceCrlf(text);
    if |cleaned| <= maxChars {
      return [cleaned];
    }
    var step := if maxChars - overlap > 1 then maxChars - overlap else 1;
    chunks := SlideWindows(cleaned, maxChars, step);
  }

  lemma ReplaceCrlfNonEmpty(s: string)
    requires s != []
    ensures ReplaceCrlf(s) != []
  {
  }

  /**
    For a positive `maxChars`, the legacy splitter gives what the package's
    gives, except that empty text gives no chunk at all.
  */
  lemma LegacyChunkTextAgrees(text: string, maxChars: int, overlap: int)
    requires maxChars >= 1
    ensures text == [] ==> LegacyChunkTextSpec(text, maxChars, overlap) == []
    ensures text == [] ==> ChunkTextSpec(text, maxChars, overlap) == [""]
    ensures text != [] ==> LegacyChunkTextSpec(text, maxChars, overlap) == ChunkTextSpec(text, maxChars, overlap)
  {
    if text != [] {
      var cleaned := ReplaceCrlf(text);
      ReplaceCrlfNonEmpty(text);
      if |cleaned| > maxChars {
        WindowsUnfold(cleaned, maxChars, Step(maxChars, overlap), 0);
      }
    }
  }

  /** The pieces of the fixed-window branches of `_chunk_file`: `[text]` when the splitter gives nothing. */
  function LegacyWindowPieces(text: string, maxChars: int): (pieces: seq<ChunkPiece>)
    ensures |pieces| >= 1
  {
    var chunks := LegacyChunkTextSpec(text, maxChars, TextChunkOverlap);
    var chunks' := if chunks == [] then [text] else chunks;
    seq(|chunks'|, i requires 0 <= i < |chunks'| => Whole(chunks'[i]))
  }

  /** What `_chunk_file` returns: the package chunker's dispatch, with the legacy splitter. */
  function LegacyChunkFileSpec(path: string, text: string, maxChars: int, tree: PyParse, isMarker: string -> bool)
    : seq<ChunkPiece>
  {
    match StrategyFor(path)
    case FixedWindows => LegacyWindowPieces(text, maxChars)
    case SymbolAware => SymbolPieces(text, tree)
    case MarkerBased => MarkerPieces(text, isMarker)
  }

  /** `_chunk_file`: never an empty list. */
  method LegacyChunkFile(path: string, text: string, maxChars: int, tree: PyParse, isMarker: string -> bool)
    returns (pieces: seq<ChunkPiece>)
    ensures pieces == LegacyChunkFileSpec(path, text, maxChars, tree, isMarker)
    ensures |pieces| >= 1
  {
    var ext := Extension(path);
    if ext in DocExtensions || IsReadmeName(path) || !(ext == ".py" || ext in CodeExtensions) {
      var chunks := LegacyChunkText(text, maxChars, TextChunkOverlap);
      if chunks == [] {
        chunks := [text];
      }
      pieces := seq(|chunks|, i requires 0 <= i < |chunks| => Whole(chunks[i]));
    } else if ext == ".py" {
      pieces := ChunkPythonAst(text, tree);
    } else {
      pieces := ChunkGenericCode(text, isMarker);
    }
  }

  /** For a positive `maxChars` the legacy `_chunk_file` and the package `ContextChunker.chunk` agree on every file. */
  lemma LegacyChunkFileAgrees(path: string, text: string, maxChars: int, tree: PyParse, isMarker: string -> bool)
    requires maxChars >= 1
    ensures LegacyChunkFileSpec(path, text, maxChars, tree, isMarker)
            == ChunkSpec(path, text, maxChars, TextChunkOverlap, tree, isMarker)
  {
    LegacyChunkTextAgrees(text, maxChars, TextChunkOverlap);
    if text == [] {
      assert ReplaceCrlf(text) == text;
    }
  }

  /** `_chunk_file` as the chunker value ingestion uses. */
  function LegacyChunker(maxChars: int, parse: string -> PyParse, isMarker: string -> bool)
    : (string, string) -> seq<ChunkPiece>
  {
    (path: string, text: string) => LegacyChunkFileSpec(path, text, maxChars, parse(text), isMarker)
  }

  // ---------------------------------------------------------------------------
  // Path selection

  /** The document test of the legacy `_select_paths`. */
  predicate LegacyIsDocument(path: string) {
    Extension(path) in DocExtensions || IsReadmeName(path)
  }

  /** Every legacy document path is a package document path. */
  lemma LegacyDocumentIsDocument(path: string)
    ensures LegacyIsDocument(path) ==> IsDocumentPath(path)
  {
  }

  /**
    The two document tests disagree exactly on the paths that name
    `CONTRIBUTING`, do not start with `README` and have no document
    extension: the package lists them as documents, the legacy copy as code.
  */
  lemma LegacyDocumentDiffers(path: string)
    ensures IsDocumentPath(path) && !LegacyIsDocument(path)
            <==> Contains(Upper(path), "CONTRIBUTING") && !IsReadmeName(path) && Extension(path) !in DocExtensions
  {
  }

  /** Two eligible entries, room for one: the first document wins, else the first entry. */
  lemma SelectionOfTwo(a: TreeNode, b: TreeNode, maxFileBytes: int, isDocument: string -> bool)
    requires Eligible(a, [], maxFileBytes) && Eligible(b, [], maxFileBytes)
    ensures Selection([a, b], [], maxFileBytes, 1, isDocument)
            == if isDocument(a.path) then [a.path] else if isDocument(b.path) then [b.path] else [a.path]
  {
    var tree := [a, b];
    assert Kept(tree, 1, [], maxFileBytes, isDocument, true) == if isDocument(a.path) then [a.path] else [];
    assert Kept(tree, 1, [], maxFileBytes, isDocument, false) == if isDocument(a.path) then [] else [a.path];
  }

  /**
    With room for one file, a code file listed before a file the two tests
    disagree on (a `CONTRIBUTING` file, by `LegacyDocumentDiffers`): the
    package selects the latter, the legacy copy the code file.
  */
  lemma DocumentOrderDiffers(code: TreeNode, contributing: TreeNode, maxFileBytes: int)
    requires Eligible(code, [], maxFileBytes) && Eligible(contributing, [], maxFileBytes)
    requires !IsDocumentPath(code.path)
    requires IsDocumentPath(contributing.path) && !LegacyIsDocument(contributing.path)
    ensures Selection([code, contributing], [], maxFileBytes, 1, IsDocumentPath) == [contributing.path]
    ensures Selection([code, contributing], [], maxFileBytes, 1, LegacyIsDocument) == [code.path]
  {
    LegacyDocumentIsDocument(code.path);
    SelectionOfTwo(code, contributing, maxFileBytes, IsDocumentPath);
    SelectionOfTwo(code, contributing, maxFileBytes, LegacyIsDocument);
  }

  // ---------------------------------------------------------------------------
  // Retrieval

  /** The list the legacy `retrieve_context` returns, or `None` when it raises. */
  function LegacyRetrieved(settings: Settings, docs: seq<VectorDocument>, prTitle: string, filePath: string,
                           diffText: string, topK: int, embed: seq<string> -> seq<Embedding>,
                           similarity: Embedding -> VectorDocument -> int, ranking: Option<seq<RankItem>>)
    : Option<seq<string>>
  {
    if !settings.indexingEnabled || docs == [] then Some([])
    else
      var query := Trim(QueryText(prTitle, filePath, diffText), settings.maxCharsPerChunk);
      var chosen := Chosen(docs, query, topK, settings.retrievalCandidates, EmbedBatchSize,
                           embed, similarity, settings.enableReranker, ranking);
      if chosen.None? then None else Some(TrimmedBlocks(chosen.value, BlockLimit(settings)))
  }

  /** The length retrieved blocks are trimmed to: `CONTEXT_MAX_CHARS_PER_CHUNK + 200`. */
  function BlockLimit(settings: Settings): int {
    settings.maxCharsPerChunk + 200
  }

  /** `[_trim(_format_context_block(doc), limit) for doc in docs]`. */
  function TrimmedBlocks(docs: seq<VectorDocument>, limit: int): (blocks: seq<string>)
    ensures |blocks| == |docs|
  {
    MapSeq(FormattedBlocks(docs), (t: string) => Trim(t, limit))
  }

  /**
    Every legacy block is a stored document's block, trimmed, at most
    `CONTEXT_MAX_CHARS_PER_CHUNK + 200` characters long once that limit is at
    least 3; for `top_k >= 0` there are at most `top_k` blocks.
  */
  lemma LegacyRetrievedBounds(settings: Settings, docs: seq<VectorDocument>, prTitle: string, filePath: string,
                              diffText: string, topK: int, embed: seq<string> -> seq<Embedding>,
                              similarity: Embedding -> VectorDocument -> int, ranking: Option<seq<RankItem>>)
    returns (shown: seq<VectorDocument>)
    requires LegacyRetrieved(settings, docs, prTitle, filePath, diffText, topK, embed, similarity, ranking).Some?
    ensures LegacyRetrieved(settings, docs, prTitle, filePath, diffText, topK, embed, similarity, ranking).value
            == TrimmedBlocks(shown, BlockLimit(settings))
    ensures forall d | d in shown :: d in docs
    ensures 0 <= topK ==> |shown| <= topK
    ensures BlockLimit(settings) >= 3 ==>
              forall b | b in LegacyRetrieved(settings, docs, prTitle, filePath, diffText, topK, embed, similarity, ranking).value ::
                |b| <= BlockLimit(settings)
  {
    if !settings.indexingEnabled || docs == [] {
      shown := [];
    } else {
      var query := Trim(QueryText(prTitle, filePath, diffText), settings.maxCharsPerChunk);
      ChosenFromStore(docs, query, topK, settings.retrievalCandidates, EmbedBatchSize,
                      embed, similarity, settings.enableReranker, ranking);
      shown := Chosen(docs, query, topK, settings.retrievalCandidates, EmbedBatchSize,
                      embed, similarity, settings.enableReranker, ranking).value;
    }
    var limit := BlockLimit(settings);
    var blocks := TrimmedBlocks(shown, limit);
    forall b | b in blocks && limit >= 3
      ensures |b| <= limit
    {
      var i :| 0 <= i < |blocks| && blocks[i] == b;
      MapSeqAt(FormattedBlocks(shown), (t: string) => Trim(t, limit), i);
      TrimSpec(FormattedBlocks(shown)[i], limit);
    }
  }

  // ---------------------------------------------------------------------------
  // The provider

  class RepoContextProvider {
    const owner: string
    const repo: string
    const baseSha: string
    const prTitle: string
    const settings: Settings
    const parse: string -> PyParse
    const isMarker: string -> bool
    const store: JsonVectorStore

    ghost predicate Valid()
      reads store
    {
      store.Valid()
    }

    /** `__post_init__`: the repository's stored index is loaded (`None`: no index file yet). */
    constructor (owner: string, repo: string, baseSha: string, prTitle: string, settings: Settings,
                 parse: string -> PyParse, isMarker: string -> bool, stored: Option<StoredIndex>)
      ensures Valid() && fresh(store)
      ensures this.owner == owner && this.repo == repo && this.baseSha == baseSha && this.prTitle == prTitle
      ensures this.settings == settings && this.parse == parse && this.isMarker == isMarker
      ensures stored.None? ==> store.docs == [] && store.metadata == map[]
      ensures stored.Some? ==> store.docs == stored.value.documents && store.metadata == stored.value.metadata
    {
      this.owner := owner;
      this.repo := repo;
      this.baseSha := baseSha;
      this.prTitle := prTitle;
      this.settings := settings;
      this.parse := parse;
      this.isMarker := isMarker;
      var s := new JsonVectorStore();
      s.Load(stored);
      store := s;
    }

    /** The documents ingestion makes of `paths`. */
    function IngestedFrom(paths: seq<string>, fetch: string -> Option<string>, embed: seq<string> -> seq<Embedding>)
      : seq<VectorDocument>
    {
      Ingested(paths, fetch, LegacyChunker(settings.maxCharsPerChunk, parse, isMarker),
               settings.maxCharsPerChunk, EmbedBatchSize, embed)
    }

    /**
      `ensure_index`: a stored commit other than the base commit rebuilds the
      index from the selected paths; otherwise the target paths without stored
      documents are ingested and appended, and the metadata stays.
    */
    method EnsureIndex(targets: seq<string>, tree: seq<TreeNode>, fetch: string -> Option<string>,
                       embed: seq<string> -> seq<Embedding>)
      requires Valid()
      modifies store
      ensures Valid()
      ensures !settings.indexingEnabled ==> store.docs == old(store.docs) && store.metadata == old(store.metadata)
      ensures settings.indexingEnabled ==> StoredSha(store.metadata) == Some(baseSha)
      ensures settings.indexingEnabled && StoredSha(old(store.metadata)) != Some(baseSha) ==>
                store.docs == IngestedFrom(Selection(tree, targets, settings.maxFileBytes, settings.maxFiles, LegacyIsDocument),
                                           fetch, embed)
                && store.metadata == IndexMetadata(baseSha, owner, repo)
      ensures settings.indexingEnabled && StoredSha(old(store.metadata)) == Some(baseSha) ==>
                store.docs == old(store.docs) + IngestedFrom(Missing(old(store.docs), targets, |targets|), fetch, embed)
                && store.metadata == old(store.metadata)
    {
      if !settings.indexingEnabled {
        return;
      }
      if StoredSha(store.metadata) != Some(baseSha) {
        RebuildIndex(targets, tree, fetch, embed);
      } else {
        var missing := MissingPaths(targets);
        if missing != [] {
          IngestAdditionalPaths(missing, fetch, embed);
        } else {
          assert IngestedFrom(missing, fetch, embed) == [];
        }
      }
    }

    /** `[path for path in target_paths if not self.store.has_path(path)]`. */
    method MissingPaths(targets: seq<string>) returns (missing: seq<string>)
      requires Valid()
      ensures missing == Missing(store.docs, targets, |targets|)
    {
      missing := [];
      for k := 0 to |targets|
        invariant missing == Missing(store.docs, targets, k)
      {
        var present := store.HasPath(targets[k]);
        if !present {
          missing := missing + [targets[k]];
        }
      }
    }

    /** `_rebuild_index`. */
    method RebuildIndex(targets: seq<string>, tree: seq<TreeNode>, fetch: string -> Option<string>,
                        embed: seq<string> -> seq<Embedding>)
      requires Valid()
      modifies store
      ensures Valid()
      ensures store.docs == IngestedFrom(Selection(tree, targets, settings.maxFileBytes, settings.maxFiles, LegacyIsDocument),
                                         fetch, embed)
      ensures store.metadata == IndexMetadata(baseSha, owner, repo)
    {
      var paths := SelectPaths(tree, targets, settings.maxFileBytes, settings.maxFiles, LegacyIsDocument);
      var documents := IngestPaths(paths, fetch, LegacyChunker(settings.maxCharsPerChunk, parse, isMarker),
                                   settings.maxCharsPerChunk, EmbedBatchSize, embed);
      store.ReplaceAll(documents, Some(map["commit_sha" := baseSha, "owner" := owner, "repo" := repo]));
    }

    /** `_ingest_additional_paths`. */
    method IngestAdditionalPaths(paths: seq<string>, fetch: string -> Option<string>, embed: seq<string> -> seq<Embedding>)
      requires Valid()
      modifies store
      ensures Valid()
      ensures store.docs == old(store.docs) + IngestedFrom(paths, fetch, embed)
      ensures store.metadata == old(store.metadata)
    {
      if paths == [] {
        return;
      }
      var documents := IngestPaths(paths, fetch, LegacyChunker(settings.maxCharsPerChunk, parse, isMarker),
                                   settings.maxCharsPerChunk, EmbedBatchSize, embed);
      if documents == [] {
        return;
      }
      store.AddDocuments(documents);
    }

    /** `retrieve_context`. */
    method RetrieveContext(filePath: string, diffText: string, topK: int, embed: seq<string> -> seq<Embedding>,
                           similarity: Embedding -> VectorDocument -> int, ranking: Option<seq<RankItem>>)
      returns (blocks: Option<seq<string>>)
      requires Valid()
      ensures blocks == LegacyRetrieved(settings, store.docs, prTitle, filePath, diffText, topK, embed, similarity, ranking)
    {
      if !settings.indexingEnabled {
        return Some([]);
      }
      var docs := store.Documents();
      if docs == [] {
        return Some([]);
      }
      var query := Trim(QueryText(prTitle, filePath, diffText), settings.maxCharsPerChunk);
      var embeddings := Embed([query], EmbedBatchSize, embed);
      if embeddings == [] {
        return None;
      }
      var candidateK := Max(topK, settings.retrievalCandidates);
      var candidates := store.SimilaritySearch(similarity(embeddings[0]), candidateK);
      if candidates == [] {
        return Some([]);
      }
      if settings.enableReranker {
        var reranked := LegacyRerank(candidates, topK, ranking);
        if reranked.Some? {
          candidates := reranked.value;
        } else {
          candidates := PyTake(candidates, topK);
        }
      } else {
        candidates := PyTake(candidates, topK);
      }
      blocks := Some(TrimmedBlocks(candidates, BlockLimit(settings)));
    }
  }
}
