/**
  `RepositoryContextService` of `src/context/service.py`: it keeps one vector
  store per repository, brings it up to date for a pull request
  (`ensure_index`), and answers retrieval requests with formatted context
  blocks (`retrieve_context`).

  What the service reaches outside itself is given as values: the repository
  tree and file contents at the base commit (`Repository`), the embedding
  endpoint (`embed`), the similarity of a stored document to a query embedding,
  the reranker's parsed answer, the Python parser and the marker regex the
  chunker uses, and the `ENABLE_CONTEXT_INDEXING` setting.
*/
module ContextService {
  import opened Maybe
  import opened PyText
  import opened ChunkPieces
  import opened ChunkSymbols
  import opened Chunking
  import opened VectorStore
  import opened Reranking
  import opened ContextBlocks
  import opened PathSelection
  import opened Ingestion
  import opened Retrieval
  import opened IndexState

  /** The fields of `ContextConfig` that the service reads (paths and model names aside). */
  datatype ContextConfig = ContextConfig(
    maxCharsPerChunk: int,
    maxFileBytes: int,
    maxFiles: int,
    retrievalCandidates: int,
    topK: int,
    enableReranker: bool,
    textChunkOverlap: int,
    embeddingBatchSize: nat)

  datatype RetrievalRequest = RetrievalRequest(filePath: string, diffText: string, topK: int)

  /** The repository at the base commit: its recursive tree listing and `_fetch_file_content`. */
  datatype Repository = Repository(tree: seq<TreeNode>, fetch: string -> Option<string>)

  /** `ContextChunker(max_chars_per_chunk, text_chunk_overlap).chunk`. */
  function PackageChunker(config: ContextConfig, parse: string -> PyParse, isMarker: string -> bool)
    : (string, string) -> seq<ChunkPiece>
  {
    (path: string, text: string) => ChunkSpec(path, text, config.maxCharsPerChunk, config.textChunkOverlap, parse(text), isMarker)
  }

  /** The list `retrieve_context` returns, or `None` when it raises. */
  function Retrieved(indexingEnabled: bool, docs: seq<VectorDocument>, config: ContextConfig, prTitle: string,
                     request: RetrievalRequest, useReranker: bool, embed: seq<string> -> seq<Embedding>,
                     similarity: Embedding -> VectorDocument -> int, ranking: Option<seq<RankItem>>)
    : Option<seq<string>>
    requires config.embeddingBatchSize >= 1
  {
    if !indexingEnabled || docs == [] then Some([])
    else
      var query := Trim(QueryText(prTitle, request.filePath, request.diffText), config.maxCharsPerChunk);
      var chosen := Chosen(docs, query, request.topK, config.retrievalCandidates, config.embeddingBatchSize,
                           embed, similarity, useReranker, ranking);
      if chosen.None? then None else Some(FormattedBlocks(chosen.value))
  }

  class RepositoryContextService {
    const owner: string
    const repo: string
    const baseSha: string
    const prTitle: string
    const config: ContextConfig
    const indexingEnabled: bool
    const chunker: (string, string) -> seq<ChunkPiece>
    const useReranker: bool
    const store: JsonVectorStore

    ghost predicate Valid()
      reads store
    {
      store.Valid() && config.embeddingBatchSize >= 1
    }

    /**
      The service loads the repository's stored index (`None`: no index file
      yet) and uses a reranker when one is given or the configuration enables
      one. A given reranker is modelled as `OpenAIReranker`'s merge. A given
      chunker is used as it is; without one the package chunker is built.
    */
    constructor (owner: string, repo: string, baseSha: string, prTitle: string, config: ContextConfig,
                 indexingEnabled: bool, parse: string -> PyParse, isMarker: string -> bool,
                 givenChunker: Option<(string, string) -> seq<ChunkPiece>>,
                 rerankerGiven: bool, stored: Option<StoredIndex>)
      requires config.embeddingBatchSize >= 1
      ensures Valid() && fresh(store)
      ensures this.owner == owner && this.repo == repo && this.baseSha == baseSha && this.prTitle == prTitle
      ensures this.config == config && this.indexingEnabled == indexingEnabled
      ensures givenChunker.Some? ==> chunker == givenChunker.value
      ensures givenChunker.None? ==> chunker == PackageChunker(config, parse, isMarker)
      ensures useReranker == (rerankerGiven || config.enableReranker)
      ensures stored.None? ==> store.docs == [] && store.metadata == map[]
      ensures stored.Some? ==> store.docs == stored.value.documents && store.metadata == stored.value.metadata
    {
      this.owner := owner;
      this.repo := repo;
      this.baseSha := baseSha;
      this.prTitle := prTitle;
      this.config := config;
      this.indexingEnabled := indexingEnabled;
      if givenChunker.Some? {
        chunker := givenChunker.value;
      } else {
        chunker := PackageChunker(config, parse, isMarker);
      }
      useReranker := rerankerGiven || config.enableReranker;
      var s := new JsonVectorStore();
      s.Load(stored);
      store := s;
    }

    /**
      `ensure_index`: when the stored commit is not the base commit, the index
      is rebuilt from the selected paths and records the base commit; otherwise
      only the target paths without stored documents are ingested and appended,
      and the metadata stays as it was.
    */
    method EnsureIndex(targets: seq<string>, repository: Repository, embed: seq<string> -> seq<Embedding>)
      requires Valid()
      modifies store
      ensures Valid()
      ensures !indexingEnabled ==> store.docs == old(store.docs) && store.metadata == old(store.metadata)
      ensures indexingEnabled ==> StoredSha(store.metadata) == Some(baseSha)
      ensures indexingEnabled && StoredSha(old(store.metadata)) != Some(baseSha) ==>
                store.docs == Ingested(Selection(repository.tree, targets, config.maxFileBytes, config.maxFiles, IsDocumentPath),
                                       repository.fetch, chunker, config.maxCharsPerChunk, config.embeddingBatchSize, embed)
                && store.metadata == IndexMetadata(baseSha, owner, repo)
      ensures indexingEnabled && StoredSha(old(store.metadata)) == Some(baseSha) ==>
                store.docs == old(store.docs)
                              + Ingested(Missing(old(store.docs), targets, |targets|), repository.fetch, chunker,
                                         config.maxCharsPerChunk, config.embeddingBatchSize, embed)
                && store.metadata == old(store.metadata)
    {
      if !indexingEnabled {
        return;
      }
      var storedSha := StoredSha(store.metadata);
      if storedSha != Some(baseSha) {
        RebuildIndex(targets, repository, embed);
      } else {
        var missing := MissingPaths(targets);
        if missing != [] {
          IngestAdditionalPaths(missing, repository, embed);
        } else {
          assert Ingested(missing, repository.fetch, chunker, config.maxCharsPerChunk, config.embeddingBatchSize, embed) == [];
        }
      }
    }

    /** `[path for path in target_paths if not self._store.has_path(path)]`. */
    method MissingPaths(targets: seq<string>) returns (missing: seq<string>)
      requires Valid()
      ensures missing == Missing(store.docs, targets, |targets|)
    {
      missing := [];
      var k := 0;
      while k < |targets|
        invariant 0 <= k <= |targets|
        invariant missing == Missing(store.docs, targets, k)
      {
        var present := store.HasPath(targets[k]);
        if !present {
          missing := missing + [targets[k]];
        }
        k := k + 1;
      }
    }

    /** `_rebuild_index`: the selected paths' documents replace the index, with the base commit recorded. */
    method RebuildIndex(targets: seq<string>, repository: Repository, embed: seq<string> -> seq<Embedding>)
      requires Valid()
      modifies store
      ensures Valid()
      ensures store.docs == Ingested(Selection(repository.tree, targets, config.maxFileBytes, config.maxFiles, IsDocumentPath),
                                     repository.fetch, chunker, config.maxCharsPerChunk, config.embeddingBatchSize, embed)
      ensures store.metadata == IndexMetadata(baseSha, owner, repo)
    {
      var paths := SelectPaths(repository.tree, targets, config.maxFileBytes, config.maxFiles, IsDocumentPath);
      var documents := IngestPaths(paths, repository.fetch, chunker, config.maxCharsPerChunk, config.embeddingBatchSize, embed);
      var metadata := map["commit_sha" := baseSha, "owner" := owner, "repo" := repo];
      store.ReplaceAll(documents, Some(metadata));
    }

    /** `_ingest_additional_paths`: the new documents, if any, are appended; the metadata is untouched. */
    method IngestAdditionalPaths(paths: seq<string>, repository: Repository, embed: seq<string> -> seq<Embedding>)
      requires Valid()
      modifies store
      ensures Valid()
      ensures store.docs == old(store.docs)
                            + Ingested(paths, repository.fetch, chunker, config.maxCharsPerChunk, config.embeddingBatchSize, embed)
      ensures store.metadata == old(store.metadata)
    {
      if paths == [] {
        return;
      }
      var documents := IngestPaths(paths, repository.fetch, chunker, config.maxCharsPerChunk, config.embeddingBatchSize, embed);
      if documents != [] {
        store.AddDocuments(documents);
      }
    }

    /**
      `retrieve_context`: nothing when indexing is off or the index is empty;
      otherwise the query is embedded, `max(top_k, retrieval_candidates)`
      candidates are fetched, and the reranker or truncation keeps `top_k`.
    */
    method RetrieveContext(request: RetrievalRequest, embed: seq<string> -> seq<Embedding>,
                           similarity: Embedding -> VectorDocument -> int, ranking: Option<seq<RankItem>>)
      returns (blocks: Option<seq<string>>)
      requires Valid()
      ensures blocks == Retrieved(indexingEnabled, store.docs, config, prTitle, request, useReranker, embed, similarity, ranking)
    {
      if !indexingEnabled {
        return Some([]);
      }
      var docs := store.Documents();
      if docs == [] {
        return Some([]);
      }
      var query := Trim(QueryText(prTitle, request.filePath, request.diffText), config.maxCharsPerChunk);
      var embeddings := Embed([query], config.embeddingBatchSize, embed);
      if embeddings == [] {
        return None;
      }
      var candidateK := Max(request.topK, config.retrievalCandidates);
      var candidates := store.SimilaritySearch(similarity(embeddings[0]), candidateK);
      if candidates == [] {
        return Some([]);
      }
      if useReranker {
        var reranked := Rerank(candidates, request.topK, ranking);
        if reranked.Some? {
          candidates := reranked.value;
        } else {
          candidates := PyTake(candidates, request.topK);
        }
      } else {
        candidates := PyTake(candidates, request.topK);
      }
      blocks := Some(FormattedBlocks(candidates));
    }
  }

  // ---------------------------------------------------------------------------
  // What the service promises

  /**
    Every block returned is the formatted block of a stored document, and for
    `top_k >= 0` there are at most `top_k` of them.
  */
  lemma RetrievedFromStore(indexingEnabled: bool, docs: seq<VectorDocument>, config: ContextConfig, prTitle: string,
                           request: RetrievalRequest, useReranker: bool, embed: seq<string> -> seq<Embedding>,
                           similarity: Embedding -> VectorDocument -> int, ranking: Option<seq<RankItem>>)
    returns (shown: seq<VectorDocument>)
    requires config.embeddingBatchSize >= 1
    requires Retrieved(indexingEnabled, docs, config, prTitle, request, useReranker, embed, similarity, ranking).Some?
    ensures Retrieved(indexingEnabled, docs, config, prTitle, request, useReranker, embed, similarity, ranking).value
            == FormattedBlocks(shown)
    ensures forall d | d in shown :: d in docs
    ensures 0 <= request.topK ==> |shown| <= request.topK
  {
    if !indexingEnabled || docs == [] {
      shown := [];
    } else {
      var query := Trim(QueryText(prTitle, request.filePath, request.diffText), config.maxCharsPerChunk);
      ChosenFromStore(docs, query, request.topK, config.retrievalCandidates, config.embeddingBatchSize,
                      embed, similarity, useReranker, ranking);
      shown := Chosen(docs, query, request.topK, config.retrievalCandidates, config.embeddingBatchSize,
                      embed, similarity, useReranker, ranking).value;
    }
  }
}
