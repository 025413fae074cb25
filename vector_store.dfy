/**
  `JsonVectorStore` of `src/context_store.py`: a list of documents, a derived
  index from file path to that path's documents, and the index metadata (the
  commit the index was built at, among others).

  The JSON file is not modelled byte by byte: `Load` receives the decoded file,
  or `None` when there is no file. The cosine similarity of a document to the
  query embedding is a parameter `similarity`, an ordered score.
*/
module VectorStore {
  import opened Maybe
  import opened PyText
  import opened StableSort

  type Embedding = seq<real>

  /** A stored chunk: its id, its file, its text, its line range and label (`tag`), and its embedding once computed. */
  datatype VectorDocument = VectorDocument(
    id: string,
    filePath: string,
    content: string,
    startLine: Option<int>,
    endLine: Option<int>,
    tag: Option<string>,
    embedding: Option<Embedding>)

  /** The contents of the index file, as `json.loads` decodes them. */
  datatype StoredIndex = StoredIndex(metadata: map<string, string>, documents: seq<VectorDocument>)

  // ---------------------------------------------------------------------------
  // The path index

  /** `index.get(path, [])`. */
  function Lookup(index: map<string, seq<VectorDocument>>, path: string): seq<VectorDocument> {
    if path in index then index[path] else []
  }

  /** `index.setdefault(doc.file_path, []).append(doc)`. */
  function Indexed(index: map<string, seq<VectorDocument>>, doc: VectorDocument): map<string, seq<VectorDocument>> {
    index[doc.filePath := Lookup(index, doc.filePath) + [doc]]
  }

  /** The index built by appending the documents one at a time, in order. */
  function PathIndex(docs: seq<VectorDocument>): map<string, seq<VectorDocument>> {
    if docs == [] then map[] else Indexed(PathIndex(docs[..|docs| - 1]), docs[|docs| - 1])
  }

  /** The documents of `docs` whose file is `path`, in order. */
  function WithPath(docs: seq<VectorDocument>, path: string): seq<VectorDocument> {
    if docs == [] then []
    else (if docs[0].filePath == path then [docs[0]] else []) + WithPath(docs[1..], path)
  }

  /** Some document of `docs` belongs to `path`. */
  predicate HasDocumentFor(docs: seq<VectorDocument>, path: string) {
    exists i | 0 <= i < |docs| :: docs[i].filePath == path
  }

  lemma {:induction false} WithPathAppend(a: seq<VectorDocument>, b: seq<VectorDocument>, path: string)
    ensures WithPath(a + b, path) == WithPath(a, path) + WithPath(b, path)
  {
    if a == [] {
      assert a + b == b;
    } else {
      var head := if a[0].filePath == path then [a[0]] else [];
      assert (a + b)[0] == a[0];
      assert (a + b)[1..] == a[1..] + b;
      WithPathAppend(a[1..], b, path);
      assert WithPath(a + b, path) == head + WithPath(a[1..] + b, path);
      assert WithPath(a, path) == head + WithPath(a[1..], path);
    }
  }

  lemma {:induction false} WithPathEmpty(docs: seq<VectorDocument>, path: string)
    ensures WithPath(docs, path) == [] <==> !HasDocumentFor(docs, path)
  {
    if docs != [] {
      WithPathEmpty(docs[1..], path);
      if HasDocumentFor(docs[1..], path) {
        var i :| 0 <= i < |docs[1..]| && docs[1..][i].filePath == path;
        assert docs[i + 1].filePath == path;
      }
      if HasDocumentFor(docs, path) && docs[0].filePath != path {
        var i :| 0 <= i < |docs| && docs[i].filePath == path;
        assert docs[1..][i - 1].filePath == path;
      }
    }
  }

  /**
    The index lists, for every path, exactly that path's documents in insertion
    order, and has a key exactly for the paths that have documents.
  */
  lemma {:induction false} PathIndexSpec(docs: seq<VectorDocument>, path: string)
    ensures Lookup(PathIndex(docs), path) == WithPath(docs, path)
    ensures path in PathIndex(docs) <==> HasDocumentFor(docs, path)
  {
    PathIndexLookup(docs, path);
    WithPathEmpty(docs, path);
    PathIndexKeys(docs, path);
  }

  lemma {:induction false} PathIndexLookup(docs: seq<VectorDocument>, path: string)
    ensures Lookup(PathIndex(docs), path) == WithPath(docs, path)
  {
    if docs != [] {
      var init := docs[..|docs| - 1];
      var d := docs[|docs| - 1];
      PathIndexLookup(init, path);
      WithPathAppend(init, [d], path);
      assert docs == init + [d];
      assert WithPath([d], path) == if d.filePath == path then [d] else [];
    }
  }

  /** A key is present exactly when its entry is not empty. */
  lemma {:induction false} PathIndexKeys(docs: seq<VectorDocument>, path: string)
    ensures path in PathIndex(docs) <==> Lookup(PathIndex(docs), path) != []
  {
    if docs != [] {
      PathIndexKeys(docs[..|docs| - 1], path);
    }
  }

  lemma PathIndexAppend(docs: seq<VectorDocument>, d: VectorDocument)
    ensures PathIndex(docs + [d]) == Indexed(PathIndex(docs), d)
  {
    assert (docs + [d])[..|docs|] == docs;
  }

  // ---------------------------------------------------------------------------
  // Search


  /** `[doc for _, doc in scored[:top_k]]` after the stable sort by descending similarity. */
  function TopK(docs: seq<VectorDocument>, similarity: VectorDocument -> int, topK: int): seq<VectorDocument> {
    PyTake(SortDesc(docs, similarity), topK)
  }

  /**
    For `topK >= 0` the search returns `min(topK, n)` documents of the store, in
    non-increasing similarity, and no document left out scores higher than one
    returned.
  */
  lemma TopKBest(docs: seq<VectorDocument>, similarity: VectorDocument -> int, topK: int)
    requires 0 <= topK
    ensures |TopK(docs, similarity, topK)| == Min(topK, |docs|)
    ensures SortedDesc(TopK(docs, similarity, topK), similarity)
    ensures multiset(TopK(docs, similarity, topK)) <= multiset(docs)
    ensures forall d | d in multiset(docs) - multiset(TopK(docs, similarity, topK)) ::
              forall x | x in TopK(docs, similarity, topK) :: similarity(x) >= similarity(d)
  {
    var s := SortDesc(docs, similarity);
    SortDescSortedPermutation(docs, similarity);
    var r := TopK(docs, similarity, topK);
    assert r == s[..|r|];
    SortedPrefixBest(s, similarity, |r|);
  }

  // ---------------------------------------------------------------------------
  // The store

  class JsonVectorStore {
    var metadata: map<string, string>
    var docs: seq<VectorDocument>
    var docsByPath: map<string, seq<VectorDocument>>

    /** The path index is the one derived from the document list. */
    ghost predicate Valid()
      reads this
    {
      docsByPath == PathIndex(docs)
    }

    /** A new store holds nothing. */
    constructor ()
      ensures Valid()
      ensures metadata == map[] && docs == [] && docsByPath == map[]
    {
      metadata := map[];
      docs := [];
      docsByPath := map[];
    }

    /** `load`: a missing file empties the store; otherwise the file's metadata and documents replace it. */
    method Load(stored: Option<StoredIndex>)
      modifies this
      ensures Valid()
      ensures stored.None? ==> metadata == map[] && docs == [] && docsByPath == map[]
      ensures stored.Some? ==> metadata == stored.value.metadata && docs == stored.value.documents
    {
      if stored.None? {
        metadata := map[];
        docs := [];
        docsByPath := map[];
        return;
      }
      metadata := stored.value.metadata;
      SetDocuments(stored.value.documents);
    }

    /** `_set_documents`: the document list becomes `newDocs` and the path index is rebuilt from it. */
    method SetDocuments(newDocs: seq<VectorDocument>)
      modifies this
      ensures Valid()
      ensures docs == newDocs && metadata == old(metadata)
    {
      docs := newDocs;
      docsByPath := map[];
      var i := 0;
      while i < |newDocs|
        invariant 0 <= i <= |newDocs|
        invariant docs == newDocs && metadata == old(metadata)
        invariant docsByPath == PathIndex(newDocs[..i])
      {
        var d := newDocs[i];
        PathIndexAppend(newDocs[..i], d);
        assert newDocs[..i + 1] == newDocs[..i] + [d];
        docsByPath := docsByPath[d.filePath := Lookup(docsByPath, d.filePath) + [d]];
        i := i + 1;
      }
      assert newDocs[..|newDocs|] == newDocs;
    }

    /** `replace_all`: the documents become exactly `newDocs`; the metadata is replaced only when given. */
    method ReplaceAll(newDocs: seq<VectorDocument>, newMetadata: Option<map<string, string>>)
      modifies this
      ensures Valid()
      ensures docs == newDocs
      ensures metadata == if newMetadata.Some? then newMetadata.value else old(metadata)
    {
      SetDocuments(newDocs);
      if newMetadata.Some? {
        metadata := newMetadata.value;
      }
    }

    /** `add_documents`: the new documents follow the stored ones, in order; nothing else changes. */
    method AddDocuments(newDocs: seq<VectorDocument>)
      requires Valid()
      modifies this
      ensures Valid()
      ensures docs == old(docs) + newDocs && metadata == old(metadata)
    {
      var i := 0;
      while i < |newDocs|
        invariant 0 <= i <= |newDocs|
        invariant docs == old(docs) + newDocs[..i] && metadata == old(metadata)
        invariant Valid()
      {
        ghost var before := docs;
        AddDocument(newDocs[i]);
        assert docs == before + [newDocs[i]];
        assert old(docs) + newDocs[..i + 1] == before + [newDocs[i]] by {
          assert newDocs[..i + 1] == newDocs[..i] + [newDocs[i]];
        }
        i := i + 1;
      }
      assert newDocs[..|newDocs|] == newDocs;
    }

    /** One iteration of `add_documents`: append `d` to the list and to its path's entry. */
    method AddDocument(d: VectorDocument)
      requires Valid()
      modifies this
      ensures Valid()
      ensures docs == old(docs) + [d] && metadata == old(metadata)
    {
      PathIndexAppend(docs, d);
      docs := docs + [d];
      docsByPath := docsByPath[d.filePath := Lookup(docsByPath, d.filePath) + [d]];
    }

    /** `has_path`: some stored document belongs to `path`. */
    method HasPath(path: string) returns (b: bool)
      requires Valid()
      ensures b <==> HasDocumentFor(docs, path)
    {
      PathIndexSpec(docs, path);
      b := path in docsByPath;
    }

    /** `documents_for_path`: the stored documents of `path`, in insertion order. */
    method DocumentsForPath(path: string) returns (r: seq<VectorDocument>)
      requires Valid()
      ensures r == WithPath(docs, path)
    {
      PathIndexSpec(docs, path);
      r := Lookup(docsByPath, path);
    }

    /** `documents`: the stored documents in insertion order, as a value the caller cannot change the store through. */
    method Documents() returns (r: seq<VectorDocument>)
      ensures r == docs
    {
      r := docs;
    }

    /** `similarity_search`: nothing for an empty store, else the `topK` most similar documents. */
    method SimilaritySearch(similarity: VectorDocument -> int, topK: int) returns (r: seq<VectorDocument>)
      ensures r == TopK(docs, similarity, topK)
      ensures docs == [] ==> r == []
    {
      if docs == [] {
        return [];
      }
      var scored := SortDesc(docs, similarity);
      r := PyTake(scored, topK);
    }
  }
}
