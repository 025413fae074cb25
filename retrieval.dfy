/**
  The query side of `retrieve_context`, shared by `src/context/service.py` and
  `src/context.py`: the query text is embedded, `max(top_k, candidates)`
  documents are fetched by similarity, and the reranker (when configured)
  or plain truncation cuts them to `top_k`.

  The similarity of a document to a query embedding is a parameter; the
  reranker's answer is the parsed ranking, or `None` when its call failed.
*/
module Retrieval {
  import opened Maybe
  import opened PyText
  import opened StableSort
  import opened VectorStore
  import opened Reranking
  import opened Ingestion

  /** `f"PR Title: {pr_title}\nFile: {file_path}\nDiff snippet:\n{diff_text}"`. */
  function QueryText(prTitle: string, filePath: string, diffText: string): string {
    "PR Title: " + prTitle + "\nFile: " + filePath + "\nDiff snippet:\n" + diffText
  }

  /**
    The reranker's list, or the first `topK` candidates when there is no
    reranker or it raised.
  */
  function Shortlist(candidates: seq<VectorDocument>, topK: int, useReranker: bool,
                     ranking: Option<seq<RankItem>>): seq<VectorDocument>
  {
    if !useReranker then PyTake(candidates, topK)
    else
      var reranked := RerankSpec(candidates, topK, ranking);
      if reranked.Some? then reranked.value else PyTake(candidates, topK)
  }

  /**
    The documents `retrieve_context` formats for a non-empty store, or `None`
    when the embedder returns nothing for the query (`[0]` raises).
  */
  function Chosen(docs: seq<VectorDocument>, query: string, topK: int, retrievalCandidates: int, batchSize: nat,
                  embed: seq<string> -> seq<Embedding>, similarity: Embedding -> VectorDocument -> int,
                  useReranker: bool, ranking: Option<seq<RankItem>>): Option<seq<VectorDocument>>
    requires batchSize >= 1
  {
    var embs := EmbedAll([query], batchSize, embed);
    if embs == [] then None
    else
      var candidates := TopK(docs, similarity(embs[0]), Max(topK, retrievalCandidates));
      if candidates == [] then Some([]) else Some(Shortlist(candidates, topK, useReranker, ranking))
  }

  /** The query is embedded in a single request. */
  lemma EmbedOne(query: string, batchSize: nat, embed: seq<string> -> seq<Embedding>)
    requires batchSize >= 1
    ensures EmbedAll([query], batchSize, embed) == embed([query])
  {
    assert [query][0..Min(batchSize, 1)] == [query];
    assert Batches([query], batchSize, batchSize) == [];
    assert Batches([query], batchSize, 0) == [[query]];
    assert Answers(embed, [[query]]) == embed([query]) + Answers(embed, []);
  }

  lemma TakeTake<T>(xs: seq<T>, a: int, b: int)
    requires 0 <= b <= a
    ensures PyTake(PyTake(xs, a), b) == PyTake(xs, b)
  {
  }

  /**
    Retrieval only returns stored documents, and for `topK >= 0` at most
    `topK` of them.
  */
  lemma ChosenFromStore(docs: seq<VectorDocument>, query: string, topK: int, retrievalCandidates: int, batchSize: nat,
                        embed: seq<string> -> seq<Embedding>, similarity: Embedding -> VectorDocument -> int,
                        useReranker: bool, ranking: Option<seq<RankItem>>)
    requires batchSize >= 1
    requires Chosen(docs, query, topK, retrievalCandidates, batchSize, embed, similarity, useReranker, ranking).Some?
    ensures forall d | d in Chosen(docs, query, topK, retrievalCandidates, batchSize, embed, similarity, useReranker, ranking).value ::
              d in docs
    ensures 0 <= topK ==>
              |Chosen(docs, query, topK, retrievalCandidates, batchSize, embed, similarity, useReranker, ranking).value| <= topK
  {
    var embs := EmbedAll([query], batchSize, embed);
    var k := Max(topK, retrievalCandidates);
    var candidates := TopK(docs, similarity(embs[0]), k);
    if candidates != [] {
      SortDescSortedPermutation(docs, similarity(embs[0]));
      forall d | d in candidates ensures d in docs {
        assert d in multiset(SortDesc(docs, similarity(embs[0])));
      }
      var reranked := RerankSpec(candidates, topK, ranking);
      if useReranker && reranked.Some? {
        RerankDrawsFromCandidates(candidates, topK, ranking);
      }
    }
  }

  /**
    Without a reranker, or when the reranker fails (no ranking, or an entry
    that is not an object), retrieval returns exactly the `topK` documents most
    similar to the query, whatever the number of candidates fetched.
  */
  lemma ChosenBySimilarity(docs: seq<VectorDocument>, query: string, topK: int, retrievalCandidates: int, batchSize: nat,
                           embed: seq<string> -> seq<Embedding>, similarity: Embedding -> VectorDocument -> int,
                           useReranker: bool, ranking: Option<seq<RankItem>>)
    requires batchSize >= 1 && 0 <= topK
    requires !useReranker || ranking.None? || Malformed(ranking.value)
    requires embed([query]) != []
    ensures Chosen(docs, query, topK, retrievalCandidates, batchSize, embed, similarity, useReranker, ranking)
            == Some(TopK(docs, similarity(embed([query])[0]), topK))
  {
    EmbedOne(query, batchSize, embed);
    var sim := similarity(embed([query])[0]);
    var k := Max(topK, retrievalCandidates);
    TakeTake(SortDesc(docs, sim), k, topK);
  }
}
