/**
  `_ingest_paths` and `_embed` of `src/context/service.py` (and their twins in
  `src/context.py`): every fetched file is chunked, each non-blank piece
  becomes a document with id `<path>::chunk-<idx>` and trimmed content, and the
  contents are embedded in fixed-size batches.

  Fetching a file (`_fetch_file_content`), chunking it and one embedding request
  are parameters: `fetch` gives the decoded text or `None` (a 404, an undecodable
  payload), `chunker` is the chunker of the copy at hand, and `embed` answers one
  batch.
*/
module Ingestion {
  import opened Maybe
  import opened PyText
  import opened ChunkPieces
  import opened VectorStore
  import opened ContextBlocks

  // ---------------------------------------------------------------------------
  // Document ids

  const ChunkMark: string := "::chunk-"

  /** `f"{path}::chunk-{idx}"`. */
  function ChunkId(path: string, idx: nat): string {
    path + ChunkMark + NatToStr(idx)
  }

  predicate IsDigit(c: char) {
    '0' <= c <= '9'
  }

  lemma {:induction false} NatToStrDigits(n: nat)
    ensures forall i | 0 <= i < |NatToStr(n)| :: IsDigit(NatToStr(n)[i])
  {
    if n >= 10 {
      NatToStrDigits(n / 10);
    }
  }

  lemma DigitCharInjective(a: nat, b: nat)
    requires a < 10 && b < 10 && DigitChar(a) == DigitChar(b)
    ensures a == b
  {
  }

  /** Decimal formatting loses nothing: different numbers print differently. */
  lemma {:induction false} NatToStrInjective(a: nat, b: nat)
    requires NatToStr(a) == NatToStr(b)
    ensures a == b
    decreases a
  {
    if a < 10 && b < 10 {
      DigitCharInjective(a, b);
    } else if a < 10 || b < 10 {
      assert false;
    } else {
      var sa, sb := NatToStr(a), NatToStr(b);
      assert sa[..|sa| - 1] == NatToStr(a / 10) && sb[..|sb| - 1] == NatToStr(b / 10);
      NatToStrInjective(a / 10, b / 10);
      DigitCharInjective(a % 10, b % 10);
    }
  }

  /** A chunk id names its file and its index: no two (path, index) pairs share an id. */
  lemma ChunkIdInjective(p1: string, i1: nat, p2: string, i2: nat)
    requires ChunkId(p1, i1) == ChunkId(p2, i2)
    ensures p1 == p2 && i1 == i2
  {
    if |p1| < |p2| {
      NoMarkAfterPath(p1, i1, |p2|);
      assert false;
    } else if |p2| < |p1| {
      NoMarkAfterPath(p2, i2, |p1|);
      assert false;
    } else {
      var s := ChunkId(p1, i1);
      assert p1 == s[..|p1|] == p2;
      assert NatToStr(i1) == s[|p1| + 8..] == NatToStr(i2);
      NatToStrInjective(i1, i2);
    }
  }

  /** Past the end of its path, a chunk id holds no `"::c"`: the mark is followed only by digits. */
  lemma NoMarkAfterPath(p: string, i: nat, at: int)
    requires |p| < at && at + 2 < |ChunkId(p, i)|
    ensures !(ChunkId(p, i)[at] == ':' && ChunkId(p, i)[at + 1] == ':' && ChunkId(p, i)[at + 2] == 'c')
  {
    var s := ChunkId(p, i);
    NatToStrDigits(i);
    if at >= |p| + 8 {
      assert s[at] == NatToStr(i)[at - |p| - 8];
    } else {
      assert s[|p|..|p| + 8] == ChunkMark;
    }
  }

  // ---------------------------------------------------------------------------
  // Documents of one file

  /** The document a non-blank piece becomes; its embedding comes later. */
  function DocFor(path: string, piece: ChunkPiece, idx: nat, maxChars: int): VectorDocument {
    VectorDocument(ChunkId(path, idx), path, Trim(Strip(piece.text), maxChars),
                   piece.startLine, piece.endLine, piece.tag, None)
  }

  /**
    `for idx, x in enumerate(xs)` over the first `k` elements, keeping the
    elements that pass `keep` and building `make(x, idx)` from each.
  */
  function Enumerated<T, U>(xs: seq<T>, keep: T -> bool, make: (T, nat) -> U, k: nat): seq<U>
    requires k <= |xs|
  {
    if k == 0 then []
    else Enumerated(xs, keep, make, k - 1) + (if keep(xs[k - 1]) then [make(xs[k - 1], k - 1)] else [])
  }

  /** Each result comes from a kept element and carries its index. */
  lemma {:induction false} EnumeratedOrigin<T, U>(xs: seq<T>, keep: T -> bool, make: (T, nat) -> U, k: nat, i: int)
    returns (idx: nat)
    requires k <= |xs| && 0 <= i < |Enumerated(xs, keep, make, k)|
    ensures idx < k && keep(xs[idx]) && Enumerated(xs, keep, make, k)[i] == make(xs[idx], idx)
  {
    var prev := Enumerated(xs, keep, make, k - 1);
    if i < |prev| {
      idx := EnumeratedOrigin(xs, keep, make, k - 1, i);
      assert Enumerated(xs, keep, make, k)[i] == prev[i];
    } else {
      idx := k - 1;
    }
  }

  /** Results come in the order of the elements they are built from. */
  lemma {:induction false} EnumeratedOrdered<T, U>(xs: seq<T>, keep: T -> bool, make: (T, nat) -> U, k: nat, i: int, j: int)
    returns (a: nat, b: nat)
    requires k <= |xs| && 0 <= i < j < |Enumerated(xs, keep, make, k)|
    ensures a < b < k
    ensures Enumerated(xs, keep, make, k)[i] == make(xs[a], a) && Enumerated(xs, keep, make, k)[j] == make(xs[b], b)
  {
    var prev := Enumerated(xs, keep, make, k - 1);
    assert Enumerated(xs, keep, make, k)[i] == prev[i];
    if j < |prev| {
      a, b := EnumeratedOrdered(xs, keep, make, k - 1, i, j);
      assert Enumerated(xs, keep, make, k)[j] == prev[j];
    } else {
      a := EnumeratedOrigin(xs, keep, make, k - 1, i);
      b := k - 1;
    }
  }

  /** Each kept element gives a result. */
  lemma {:induction false} EnumeratedComplete<T, U>(xs: seq<T>, keep: T -> bool, make: (T, nat) -> U, k: nat, idx: nat)
    returns (i: int)
    requires idx < k <= |xs| && keep(xs[idx])
    ensures 0 <= i < |Enumerated(xs, keep, make, k)| && Enumerated(xs, keep, make, k)[i] == make(xs[idx], idx)
  {
    var prev := Enumerated(xs, keep, make, k - 1);
    if idx < k - 1 {
      i := EnumeratedComplete(xs, keep, make, k - 1, idx);
      assert Enumerated(xs, keep, make, k)[i] == prev[i];
    } else {
      i := |prev|;
    }
  }

  /** The documents of the first `k` pieces of a file: blank pieces are skipped and keep their index. */
  function FileDocs(path: string, pieces: seq<ChunkPiece>, maxChars: int, k: nat): seq<VectorDocument>
    requires k <= |pieces|
  {
    Enumerated(pieces, (p: ChunkPiece) => NonBlank(p.text), (p: ChunkPiece, idx: nat) => DocFor(path, p, idx, maxChars), k)
  }

  lemma FileDocsStep(path: string, pieces: seq<ChunkPiece>, maxChars: int, k: nat)
    requires 0 < k <= |pieces|
    ensures FileDocs(path, pieces, maxChars, k)
            == FileDocs(path, pieces, maxChars, k - 1)
               + (if NonBlank(pieces[k - 1].text) then [DocFor(path, pieces[k - 1], k - 1, maxChars)] else [])
  {
  }

  /** Every document of a file comes from a non-blank piece, whose index its id carries. */
  lemma FileDocOrigin(path: string, pieces: seq<ChunkPiece>, maxChars: int, k: nat, i: int)
    returns (idx: nat)
    requires k <= |pieces| && 0 <= i < |FileDocs(path, pieces, maxChars, k)|
    ensures idx < k && NonBlank(pieces[idx].text)
    ensures FileDocs(path, pieces, maxChars, k)[i] == DocFor(path, pieces[idx], idx, maxChars)
  {
    idx := EnumeratedOrigin(pieces, (p: ChunkPiece) => NonBlank(p.text),
                            (p: ChunkPiece, idx: nat) => DocFor(path, p, idx, maxChars), k, i);
  }

  /** Every non-blank piece becomes a document. */
  lemma FileDocsComplete(path: string, pieces: seq<ChunkPiece>, maxChars: int, k: nat, idx: nat)
    returns (j: int)
    requires idx < k <= |pieces| && NonBlank(pieces[idx].text)
    ensures 0 <= j < |FileDocs(path, pieces, maxChars, k)|
    ensures FileDocs(path, pieces, maxChars, k)[j] == DocFor(path, pieces[idx], idx, maxChars)
  {
    j := EnumeratedComplete(pieces, (p: ChunkPiece) => NonBlank(p.text),
                            (p: ChunkPiece, idx: nat) => DocFor(path, p, idx, maxChars), k, idx);
  }

  /** The documents of one file have pairwise distinct ids. */
  lemma FileDocsUnique(path: string, pieces: seq<ChunkPiece>, maxChars: int, k: nat)
    requires k <= |pieces|
    ensures forall i, j | 0 <= i < j < |FileDocs(path, pieces, maxChars, k)| ::
              FileDocs(path, pieces, maxChars, k)[i].id != FileDocs(path, pieces, maxChars, k)[j].id
  {
    var docs := FileDocs(path, pieces, maxChars, k);
    forall i, j | 0 <= i < j < |docs| ensures docs[i].id != docs[j].id {
      var a, b := EnumeratedOrdered(pieces, (p: ChunkPiece) => NonBlank(p.text),
                                    (p: ChunkPiece, idx: nat) => DocFor(path, p, idx, maxChars), k, i, j);
      if docs[i].id == docs[j].id {
        ChunkIdInjective(path, a, path, b);
      }
    }
  }

  /** One iteration of the path loop: the documents of one fetched file, in piece order. */
  method FileDocuments(path: string, pieces: seq<ChunkPiece>, maxChars: int) returns (docs: seq<VectorDocument>)
    ensures docs == FileDocs(path, pieces, maxChars, |pieces|)
  {
    docs := [];
    var idx := 0;
    while idx < |pieces|
      invariant 0 <= idx <= |pieces|
      invariant docs == FileDocs(path, pieces, maxChars, idx)
    {
      docs := AddPiece(path, pieces, maxChars, idx, docs);
      idx := idx + 1;
    }
  }

  /** One iteration of the piece loop: a non-blank piece adds its document. */
  method AddPiece(path: string, pieces: seq<ChunkPiece>, maxChars: int, idx: nat, docs: seq<VectorDocument>)
    returns (r: seq<VectorDocument>)
    requires idx < |pieces| && docs == FileDocs(path, pieces, maxChars, idx)
    ensures r == FileDocs(path, pieces, maxChars, idx + 1)
  {
    var chunkText := Strip(pieces[idx].text);
    FileDocsStep(path, pieces, maxChars, idx + 1);
    r := docs;
    if chunkText != [] {
      r := r + [DocFor(path, pieces[idx], idx, maxChars)];
    }
  }

  // ---------------------------------------------------------------------------
  // Batched embedding


  /** `texts[start : start + batch_size]` for each `start` in `range(from, len(texts), batch_size)`. */
  function Batches(texts: seq<string>, batchSize: nat, from: nat): seq<seq<string>>
    requires batchSize >= 1
    decreases |texts| - from
  {
    if from >= |texts| then []
    else [texts[from..Min(from + batchSize, |texts|)]] + Batches(texts, batchSize, from + batchSize)
  }

  function Flatten<T>(xss: seq<seq<T>>): seq<T> {
    if xss == [] then [] else xss[0] + Flatten(xss[1..])
  }

  /** The answers to the batches, concatenated in order. */
  function Answers(embed: seq<string> -> seq<Embedding>, batches: seq<seq<string>>): seq<Embedding> {
    if batches == [] then [] else embed(batches[0]) + Answers(embed, batches[1..])
  }

  /** What `_embed` returns. */
  function EmbedAll(texts: seq<string>, batchSize: nat, embed: seq<string> -> seq<Embedding>): seq<Embedding>
    requires batchSize >= 1
  {
    Answers(embed, Batches(texts, batchSize, 0))
  }

  /**
    The batches cover the texts in order, each batch holds between one and
    `batchSize` texts, and every batch but the last holds exactly `batchSize`.
  */
  lemma {:induction false} BatchesCover(texts: seq<string>, batchSize: nat, from: nat)
    requires batchSize >= 1 && from <= |texts|
    ensures Flatten(Batches(texts, batchSize, from)) == texts[from..]
    ensures forall i | 0 <= i < |Batches(texts, batchSize, from)| ::
              1 <= |Batches(texts, batchSize, from)[i]| <= batchSize
    ensures forall i | 0 <= i < |Batches(texts, batchSize, from)| - 1 ::
              |Batches(texts, batchSize, from)[i]| == batchSize
    decreases |texts| - from
  {
    if from < |texts| {
      var end := Min(from + batchSize, |texts|);
      var bs := Batches(texts, batchSize, from);
      if end < |texts| {
        BatchesCover(texts, batchSize, end);
      } else {
        assert Batches(texts, batchSize, from + batchSize) == [];
      }
      assert bs[1..] == Batches(texts, batchSize, from + batchSize);
      assert texts[from..] == texts[from..end] + texts[end..];
    }
  }

  lemma {:induction false} AnswersLength(embed: seq<string> -> seq<Embedding>, batches: seq<seq<string>>)
    requires forall b :: |embed(b)| == |b|
    ensures |Answers(embed, batches)| == |Flatten(batches)|
  {
    if batches != [] {
      AnswersLength(embed, batches[1..]);
    }
  }

  /** An embedder that answers each text once gives one embedding per text. */
  lemma EmbedAllLength(texts: seq<string>, batchSize: nat, embed: seq<string> -> seq<Embedding>)
    requires batchSize >= 1
    requires forall b :: |embed(b)| == |b|
    ensures |EmbedAll(texts, batchSize, embed)| == |texts|
  {
    BatchesCover(texts, batchSize, 0);
    AnswersLength(embed, Batches(texts, batchSize, 0));
  }

  /** `_embed`: one request per batch, the answers concatenated. */
  method Embed(texts: seq<string>, batchSize: nat, embed: seq<string> -> seq<Embedding>) returns (embeddings: seq<Embedding>)
    requires batchSize >= 1
    ensures embeddings == EmbedAll(texts, batchSize, embed)
  {
    embeddings := [];
    var start := 0;
    while start < |texts|
      invariant embeddings + Answers(embed, Batches(texts, batchSize, start)) == EmbedAll(texts, batchSize, embed)
      decreases |texts| - start
    {
      var batch := texts[start..Min(start + batchSize, |texts|)];
      embeddings := embeddings + embed(batch);
      start := start + batchSize;
    }
  }

  // ---------------------------------------------------------------------------
  // Ingesting a list of paths

  /** `zip(documents, embeddings)` assigning `doc.embedding`: the first `min(n, m)` documents receive theirs. */
  function WithEmbeddings(docs: seq<VectorDocument>, embs: seq<Embedding>): (r: seq<VectorDocument>)
    ensures |r| == |docs|
  {
    seq(|docs|, i requires 0 <= i < |docs| => if i < |embs| then docs[i].(embedding := Some(embs[i])) else docs[i])
  }

  method AttachEmbeddings(docs: seq<VectorDocument>, embs: seq<Embedding>) returns (r: seq<VectorDocument>)
    ensures r == WithEmbeddings(docs, embs)
  {
    r := docs;
    var i := 0;
    while i < |docs| && i < |embs|
      invariant 0 <= i <= |docs| && i <= |embs| && |r| == |docs|
      invariant forall j | 0 <= j < |docs| :: r[j] == if j < i then docs[j].(embedding := Some(embs[j])) else docs[j]
    {
      r := r[i := r[i].(embedding := Some(embs[i]))];
      i := i + 1;
    }
  }

  /** The documents of the first `k` paths, a missing file contributing none. */
  function PathsDocs(paths: seq<string>, fetch: string -> Option<string>,
                     chunker: (string, string) -> seq<ChunkPiece>, maxChars: int, k: nat): seq<VectorDocument>
    requires k <= |paths|
  {
    if k == 0 then []
    else
      var path := paths[k - 1];
      PathsDocs(paths, fetch, chunker, maxChars, k - 1)
      + match fetch(path)
        case None => []
        case Some(content) => FileDocs(path, chunker(path, content), maxChars, |chunker(path, content)|)
  }

  function Contents(docs: seq<VectorDocument>): (texts: seq<string>)
    ensures |texts| == |docs|
  {
    seq(|docs|, i requires 0 <= i < |docs| => docs[i].content)
  }

  lemma ContentsAppend(a: seq<VectorDocument>, b: seq<VectorDocument>)
    ensures Contents(a + b) == Contents(a) + Contents(b)
  {
    assert forall i | |a| <= i < |a| + |b| :: (a + b)[i] == b[i - |a|];
  }

  /** The file of path `k - 1` follows the documents of the paths before it. */
  lemma PathsDocsStep(paths: seq<string>, fetch: string -> Option<string>,
                      chunker: (string, string) -> seq<ChunkPiece>, maxChars: int, k: nat)
    requires 0 < k <= |paths|
    ensures fetch(paths[k - 1]).None? ==>
              PathsDocs(paths, fetch, chunker, maxChars, k) == PathsDocs(paths, fetch, chunker, maxChars, k - 1)
    ensures fetch(paths[k - 1]).Some? ==>
              var pieces := chunker(paths[k - 1], fetch(paths[k - 1]).value);
              PathsDocs(paths, fetch, chunker, maxChars, k)
              == PathsDocs(paths, fetch, chunker, maxChars, k - 1) + FileDocs(paths[k - 1], pieces, maxChars, |pieces|)
  {
  }

  /** What `_ingest_paths` returns. */
  function Ingested(paths: seq<string>, fetch: string -> Option<string>, chunker: (string, string) -> seq<ChunkPiece>,
                    maxChars: int, batchSize: nat, embed: seq<string> -> seq<Embedding>): seq<VectorDocument>
    requires batchSize >= 1
  {
    var docs := PathsDocs(paths, fetch, chunker, maxChars, |paths|);
    if docs == [] then [] else WithEmbeddings(docs, EmbedAll(Contents(docs), batchSize, embed))
  }

  /** `_ingest_paths`: the path loop, then one embedding pass over all contents. */
  method IngestPaths(paths: seq<string>, fetch: string -> Option<string>, chunker: (string, string) -> seq<ChunkPiece>,
                     maxChars: int, batchSize: nat, embed: seq<string> -> seq<Embedding>)
    returns (documents: seq<VectorDocument>)
    requires batchSize >= 1
    ensures documents == Ingested(paths, fetch, chunker, maxChars, batchSize, embed)
  {
    var texts;
    documents, texts := CollectDocuments(paths, fetch, chunker, maxChars);
    if documents == [] {
      return [];
    }
    var embeddings := Embed(texts, batchSize, embed);
    documents := AttachEmbeddings(documents, embeddings);
  }

  /** The path loop of `_ingest_paths`: the documents of every fetched path, and their contents. */
  method CollectDocuments(paths: seq<string>, fetch: string -> Option<string>,
                          chunker: (string, string) -> seq<ChunkPiece>, maxChars: int)
    returns (documents: seq<VectorDocument>, texts: seq<string>)
    ensures documents == PathsDocs(paths, fetch, chunker, maxChars, |paths|)
    ensures texts == Contents(documents)
  {
    documents := [];
    texts := [];
    for k := 0 to |paths|
      invariant documents == PathsDocs(paths, fetch, chunker, maxChars, k)
      invariant texts == Contents(documents)
    {
      documents, texts := IngestPath(documents, texts, paths, fetch, chunker, maxChars, k);
    }
  }

  /** One iteration of the path loop: fetch path `k` and, when found, append its documents and contents. */
  method IngestPath(documents: seq<VectorDocument>, texts: seq<string>, paths: seq<string>,
                    fetch: string -> Option<string>, chunker: (string, string) -> seq<ChunkPiece>, maxChars: int, k: nat)
    returns (documents': seq<VectorDocument>, texts': seq<string>)
    requires k < |paths| && documents == PathsDocs(paths, fetch, chunker, maxChars, k) && texts == Contents(documents)
    ensures documents' == PathsDocs(paths, fetch, chunker, maxChars, k + 1)
    ensures texts' == Contents(documents')
  {
    documents', texts' := documents, texts;
    var content := fetch(paths[k]);
    PathsDocsStep(paths, fetch, chunker, maxChars, k + 1);
    if content.Some? {
      var fileDocs := FileDocuments(paths[k], chunker(paths[k], content.value), maxChars);
      ContentsAppend(documents, fileDocs);
      documents' := documents + fileDocs;
      texts' := texts + Contents(fileDocs);
    }
  }

  // ---------------------------------------------------------------------------
  // What ingestion promises

  /** Every ingested document comes from a fetched path and a non-blank piece of it. */
  lemma {:induction false} PathsDocOrigin(paths: seq<string>, fetch: string -> Option<string>,
                                          chunker: (string, string) -> seq<ChunkPiece>, maxChars: int, k: nat, i: int)
    returns (f: nat, idx: nat)
    requires k <= |paths| && 0 <= i < |PathsDocs(paths, fetch, chunker, maxChars, k)|
    ensures f < k && fetch(paths[f]).Some?
    ensures idx < |chunker(paths[f], fetch(paths[f]).value)|
    ensures NonBlank(chunker(paths[f], fetch(paths[f]).value)[idx].text)
    ensures PathsDocs(paths, fetch, chunker, maxChars, k)[i]
            == DocFor(paths[f], chunker(paths[f], fetch(paths[f]).value)[idx], idx, maxChars)
  {
    var prev := PathsDocs(paths, fetch, chunker, maxChars, k - 1);
    PathsDocsStep(paths, fetch, chunker, maxChars, k);
    if i < |prev| {
      f, idx := PathsDocOrigin(paths, fetch, chunker, maxChars, k - 1, i);
    } else {
      f := k - 1;
      var pieces := chunker(paths[f], fetch(paths[f]).value);
      idx := FileDocOrigin(paths[f], pieces, maxChars, |pieces|, i - |prev|);
    }
  }

  /** Distinct paths give documents with pairwise distinct ids. */
  lemma {:induction false} PathsDocsUnique(paths: seq<string>, fetch: string -> Option<string>,
                                           chunker: (string, string) -> seq<ChunkPiece>, maxChars: int, k: nat)
    requires k <= |paths|
    requires forall a, b | 0 <= a < b < |paths| :: paths[a] != paths[b]
    ensures forall i, j | 0 <= i < j < |PathsDocs(paths, fetch, chunker, maxChars, k)| ::
              PathsDocs(paths, fetch, chunker, maxChars, k)[i].id != PathsDocs(paths, fetch, chunker, maxChars, k)[j].id
  {
    if k > 0 {
      var prev := PathsDocs(paths, fetch, chunker, maxChars, k - 1);
      var docs := PathsDocs(paths, fetch, chunker, maxChars, k);
      PathsDocsUnique(paths, fetch, chunker, maxChars, k - 1);
      PathsDocsStep(paths, fetch, chunker, maxChars, k);
      if fetch(paths[k - 1]).Some? {
        var pieces := chunker(paths[k - 1], fetch(paths[k - 1]).value);
        var file := FileDocs(paths[k - 1], pieces, maxChars, |pieces|);
        FileDocsUnique(paths[k - 1], pieces, maxChars, |pieces|);
        forall i, j | 0 <= i < j < |docs| ensures docs[i].id != docs[j].id {
          if j < |prev| {
            assert docs[i] == prev[i] && docs[j] == prev[j];
          } else if i >= |prev| {
            assert docs[i] == file[i - |prev|] && docs[j] == file[j - |prev|];
          } else {
            assert docs[i] == prev[i] && docs[j] == file[j - |prev|];
            CrossFileIds(paths, fetch, chunker, maxChars, k, i, j - |prev|);
          }
        }
      }
    }
  }

  /** A document of an earlier path and one of path `k - 1` have different ids. */
  lemma CrossFileIds(paths: seq<string>, fetch: string -> Option<string>,
                     chunker: (string, string) -> seq<ChunkPiece>, maxChars: int, k: nat, i: int, j: int)
    requires 0 < k <= |paths| && fetch(paths[k - 1]).Some?
    requires forall a, b | 0 <= a < b < |paths| :: paths[a] != paths[b]
    requires 0 <= i < |PathsDocs(paths, fetch, chunker, maxChars, k - 1)|
    requires 0 <= j < |FileDocs(paths[k - 1], chunker(paths[k - 1], fetch(paths[k - 1]).value), maxChars,
                                |chunker(paths[k - 1], fetch(paths[k - 1]).value)|)|
    ensures PathsDocs(paths, fetch, chunker, maxChars, k - 1)[i].id
            != FileDocs(paths[k - 1], chunker(paths[k - 1], fetch(paths[k - 1]).value), maxChars,
                        |chunker(paths[k - 1], fetch(paths[k - 1]).value)|)[j].id
  {
    var pieces := chunker(paths[k - 1], fetch(paths[k - 1]).value);
    var f, idx := PathsDocOrigin(paths, fetch, chunker, maxChars, k - 1, i);
    var idx2 := FileDocOrigin(paths[k - 1], pieces, maxChars, |pieces|, j);
    if ChunkId(paths[f], idx) == ChunkId(paths[k - 1], idx2) {
      ChunkIdInjective(paths[f], idx, paths[k - 1], idx2);
    }
  }

  /**
    Every ingested document belongs to a path that was asked for and could be
    fetched, has non-blank content within `maxChars` (when that leaves room for
    the ellipsis), and carries an embedding when the embedder answers every text;
    with distinct paths, no two documents share an id.
  */
  lemma IngestedDocs(paths: seq<string>, fetch: string -> Option<string>, chunker: (string, string) -> seq<ChunkPiece>,
                     maxChars: int, batchSize: nat, embed: seq<string> -> seq<Embedding>)
    requires batchSize >= 1
    ensures forall i | 0 <= i < |Ingested(paths, fetch, chunker, maxChars, batchSize, embed)| ::
              var d := Ingested(paths, fetch, chunker, maxChars, batchSize, embed)[i];
              d.filePath in paths && fetch(d.filePath).Some? && NonBlank(d.content)
              && (maxChars >= 3 ==> |d.content| <= maxChars)
    ensures (forall b :: |embed(b)| == |b|) ==>
              forall i | 0 <= i < |Ingested(paths, fetch, chunker, maxChars, batchSize, embed)| ::
                Ingested(paths, fetch, chunker, maxChars, batchSize, embed)[i].embedding.Some?
    ensures (forall a, b | 0 <= a < b < |paths| :: paths[a] != paths[b]) ==>
              forall i, j | 0 <= i < j < |Ingested(paths, fetch, chunker, maxChars, batchSize, embed)| ::
                Ingested(paths, fetch, chunker, maxChars, batchSize, embed)[i].id
                != Ingested(paths, fetch, chunker, maxChars, batchSize, embed)[j].id
  {
    var docs := PathsDocs(paths, fetch, chunker, maxChars, |paths|);
    var r := Ingested(paths, fetch, chunker, maxChars, batchSize, embed);
    if docs != [] {
      var embs := EmbedAll(Contents(docs), batchSize, embed);
      forall i | 0 <= i < |r|
        ensures r[i].id == docs[i].id && r[i].filePath == docs[i].filePath && r[i].content == docs[i].content
        ensures i < |embs| ==> r[i].embedding.Some?
      {
      }
      forall i | 0 <= i < |r|
        ensures r[i].filePath in paths && fetch(r[i].filePath).Some? && NonBlank(r[i].content)
        ensures maxChars >= 3 ==> |r[i].content| <= maxChars
      {
        var f, idx := PathsDocOrigin(paths, fetch, chunker, maxChars, |paths|, i);
        var piece := chunker(paths[f], fetch(paths[f]).value)[idx];
        StripNonBlank(piece.text);
        TrimNonBlank(Strip(piece.text), maxChars);
        TrimSpec(Strip(piece.text), maxChars);
      }
      if forall b :: |embed(b)| == |b| {
        EmbedAllLength(Contents(docs), batchSize, embed);
      }
      if forall a, b | 0 <= a < b < |paths| :: paths[a] != paths[b] {
        PathsDocsUnique(paths, fetch, chunker, maxChars, |paths|);
      }
    }
  }

  /** The stripped text of a non-blank string is non-blank. */
  lemma StripNonBlank(s: string)
    requires NonBlank(s)
    ensures NonBlank(Strip(s))
  {
    NonBlankAt(Strip(s), 0);
  }
}
