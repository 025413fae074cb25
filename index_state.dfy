/**
  The index bookkeeping `ensure_index` does in both `src/context/service.py` and
  `src/context.py`: the commit the stored index was built at, the metadata a
  rebuild records, and which target paths have no stored documents yet.
*/
module IndexState {
  import opened Maybe
  import opened VectorStore

  /** `metadata.get("commit_sha")`. */
  function StoredSha(metadata: map<string, string>): Option<string> {
    if "commit_sha" in metadata then Some(metadata["commit_sha"]) else None
  }

  /** The metadata `_rebuild_index` stores. */
  function IndexMetadata(sha: string, owner: string, repo: string): (m: map<string, string>)
    ensures StoredSha(m) == Some(sha)
    ensures m.Keys == {"commit_sha", "owner", "repo"}
  {
    map["commit_sha" := sha, "owner" := owner, "repo" := repo]
  }

  /** `[path for path in target_paths[:k] if not store.has_path(path)]`. */
  function Missing(docs: seq<VectorDocument>, targets: seq<string>, k: nat): seq<string>
    requires k <= |targets|
  {
    if k == 0 then []
    else Missing(docs, targets, k - 1) + (if HasDocumentFor(docs, targets[k - 1]) then [] else [targets[k - 1]])
  }

  /** The missing paths are exactly the targets without a stored document, in target order. */
  lemma {:induction false} MissingSpec(docs: seq<VectorDocument>, targets: seq<string>, k: nat)
    requires k <= |targets|
    ensures forall p :: p in Missing(docs, targets, k) <==> p in targets[..k] && !HasDocumentFor(docs, p)
    ensures |Missing(docs, targets, k)| <= k
  {
    if k > 0 {
      MissingSpec(docs, targets, k - 1);
      assert targets[..k] == targets[..k - 1] + [targets[k - 1]];
    }
  }

  /**
    On an up-to-date index, `ensure_index` adds nothing when every target
    already has documents.
  */
  lemma {:induction false} NothingMissing(docs: seq<VectorDocument>, targets: seq<string>, k: nat)
    requires k <= |targets|
    requires forall p | p in targets :: HasDocumentFor(docs, p)
    ensures Missing(docs, targets, k) == []
  {
    if k > 0 {
      NothingMissing(docs, targets, k - 1);
      assert HasDocumentFor(docs, targets[k - 1]);
    }
  }
}
