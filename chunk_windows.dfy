/**
  The fixed-width chunker of `src/context/chunking.py` (`_chunk_text` and
  `_chunk_document`): after CRLF normalisation, text longer than `maxChars` is
  cut into windows of at most `maxChars` characters whose starts are `step`
  apart, `step = max(maxChars - overlap, 1)`.
*/
module ChunkWindows {
  import opened PyText
  import opened ChunkPieces

  /** `max(maxChars - overlap, 1)`. */
  function Step(maxChars: int, overlap: int): (step: int)
    ensures step >= 1
  {
    if maxChars - overlap > 1 then maxChars - overlap else 1
  }

  /** The non-empty fragments `c[start : start + maxChars]` for starts `start, start + step, ...` below `|c|`. */
  function Windows(c: string, maxChars: int, step: int, start: nat): seq<string>
    requires step >= 1
    decreases |c| - start
  {
    if start >= |c| then []
    else
      var fragment := PySlice(c, start, start + maxChars);
      (if fragment != [] then [fragment] else []) + Windows(c, maxChars, step, start + step)
  }
  /** `_chunk_text` after CRLF normalisation: the text itself when short, else its windows. */
  function WindowChunks(cleaned: string, maxChars: int, overlap: int): seq<string> {
    if |cleaned| <= maxChars then [cleaned]
    else
      var w := Windows(cleaned, maxChars, Step(maxChars, overlap), 0);
      if w == [] then [cleaned] else w
  }

  /** What `ContextChunker._chunk_text` returns. */
  function ChunkTextSpec(text: string, maxChars: int, overlap: int): seq<string> {
    WindowChunks(ReplaceCrlf(text), maxChars, overlap)
  }

  /** `ContextChunker._chunk_text`: CRLF-normalise, then split into overlapping windows. */
  method ChunkText(text: string, maxChars: int, overlap: int) returns (chunks: seq<string>)
    ensures chunks == ChunkTextSpec(text, maxChars, overlap)
    ensures |chunks| >= 1
  {
    var cleaned := ReplaceCrlf(text);
    if |cleaned| <= maxChars {
      return [cleaned];
    }
    var step := if maxChars - overlap > 1 then maxChars - overlap else 1;
    chunks := SlideWindows(cleaned, maxChars, step);
    if chunks == [] {
      chunks := [cleaned];
    }
  }

  /** The window loop of `_chunk_text`. */
  method SlideWindows(cleaned: string, maxChars: int, step: int) returns (chunks: seq<string>)
    requires step >= 1
    ensures chunks == Windows(cleaned, maxChars, step, 0)
  {
    chunks := [];
    var start := 0;
    while start < |cleaned|
      invariant chunks + Windows(cleaned, maxChars, step, start) == Windows(cleaned, maxChars, step, 0)
      decreases |cleaned| - start
    {
      chunks := AddWindow(chunks, cleaned, maxChars, step, start);
      start := start + step;
    }
  }

  /** One iteration of the window loop: the fragment at `start`, when not empty, joins the chunks. */
  method AddWindow(chunks: seq<string>, cleaned: string, maxChars: int, step: int, start: nat) returns (chunks': seq<string>)
    requires step >= 1 && start < |cleaned|
    ensures chunks' + Windows(cleaned, maxChars, step, start + step) == chunks + Windows(cleaned, maxChars, step, start)
  {
    var fragment := PySlice(cleaned, start, start + maxChars);
    ghost var rest := Windows(cleaned, maxChars, step, start + step);
    chunks' := chunks;
    if fragment != [] {
      assert chunks + ([fragment] + rest) == (chunks + [fragment]) + rest;
      chunks' := chunks + [fragment];
    } else {
      assert [] + rest == rest;
    }
  }

  /** Number of window starts `start, start + step, ...` below `len`. */
  function WindowCount(len: nat, step: int, start: nat): nat
    requires step >= 1
    decreases len - start
  {
    if start >= len then 0 else 1 + WindowCount(len, step, start + step)
  }

  /** There are `ceil((len - start) / step)` window starts: the last one is below `len`, the next would not be. */
  lemma {:induction false} WindowCountBounds(len: nat, step: int, start: nat)
    requires step >= 1 && start < len
    ensures var n := WindowCount(len, step, start);
            n >= 1 && start + (n - 1) * step < len <= start + n * step
    decreases len - start
  {
    if start + step < len {
      WindowCountBounds(len, step, start + step);
      var m := WindowCount(len, step, start + step);
      assert start + step + (m - 1) * step == start + m * step;
      assert start + step + m * step == start + (m + 1) * step;
    }
  }

  /** The fragment of `c` a window starting at `from` holds: non-empty, at most `maxChars` long. */
  function WindowText(c: string, maxChars: int, from: int): (w: string)
    requires 0 <= from < |c| && maxChars >= 1
    ensures 1 <= |w| <= maxChars && from + |w| <= |c|
  {
    c[from..Min(from + maxChars, |c|)]
  }

  /** For `maxChars >= 1` a start below `|c|` always yields a window. */
  lemma WindowsUnfold(c: string, maxChars: int, step: int, start: nat)
    requires maxChars >= 1 && step >= 1 && start < |c|
    ensures Windows(c, maxChars, step, start)
            == [WindowText(c, maxChars, start)] + Windows(c, maxChars, step, start + step)
  {
    assert PySlice(c, start, start + maxChars) == WindowText(c, maxChars, start);
  }

  lemma {:induction false} WindowsLength(c: string, maxChars: int, step: int, start: nat)
    requires maxChars >= 1 && step >= 1
    ensures |Windows(c, maxChars, step, start)| == WindowCount(|c|, step, start)
    decreases |c| - start
  {
    if start < |c| {
      WindowsLength(c, maxChars, step, start + step);
      WindowsUnfold(c, maxChars, step, start);
    }
  }

  /** `i * step`, written as repeated addition. */
  function Offset(step: int, i: int): (r: int)
    ensures step >= 0 ==> r >= 0
    decreases i
  {
    if i <= 0 then 0 else Offset(step, i - 1) + step
  }

  lemma {:induction false} OffsetIsProduct(step: int, i: nat)
    ensures Offset(step, i) == i * step
  {
    if i > 0 {
      OffsetIsProduct(step, i - 1);
    }
  }

  /** For `maxChars >= 1`, window `i` is the fragment starting `i*step` after `start`. */
  lemma {:induction false} WindowsIndex(c: string, maxChars: int, step: int, start: nat, i: nat, from: int)
    requires maxChars >= 1 && step >= 1 && i < |Windows(c, maxChars, step, start)|
    requires from == start + Offset(step, i)
    ensures from < |c|
    ensures Windows(c, maxChars, step, start)[i] == WindowText(c, maxChars, from)
    decreases i
  {
    assert start < |c|;
    var rest := Windows(c, maxChars, step, start + step);
    WindowsUnfold(c, maxChars, step, start);
    if i > 0 {
      WindowsIndex(c, maxChars, step, start + step, i - 1, from);
      assert Windows(c, maxChars, step, start)[i] == rest[i - 1];
    }
  }

  /** Short text (after CRLF normalisation) gives exactly one chunk: the normalised text, `""` included. */
  lemma ChunkTextShort(cleaned: string, maxChars: int, overlap: int)
    requires |cleaned| <= maxChars
    ensures WindowChunks(cleaned, maxChars, overlap) == [cleaned]
  {
  }

  /** Longer normalised text with `maxChars >= 1` is cut into `ceil(len / step)` windows. */
  lemma ChunkTextCount(cleaned: string, maxChars: int, overlap: int)
    requires maxChars >= 1 && |cleaned| > maxChars
    ensures var step := Step(maxChars, overlap);
            var n := |WindowChunks(cleaned, maxChars, overlap)|;
            n >= 1 && (n - 1) * step < |cleaned| <= n * step
  {
    var step := Step(maxChars, overlap);
    var w := Windows(cleaned, maxChars, step, 0);
    WindowsLength(cleaned, maxChars, step, 0);
    WindowCountBounds(|cleaned|, step, 0);
    assert WindowChunks(cleaned, maxChars, overlap) == w;
  }

  /**
    Longer normalised text with `maxChars >= 1`: chunk `i` is the window starting
    at `Offset(step, i)`, that is at `i*step` by `OffsetIsProduct`.
  */
  lemma ChunkTextWindows(cleaned: string, maxChars: int, overlap: int, i: int)
    requires maxChars >= 1 && |cleaned| > maxChars
    requires 0 <= i < |WindowChunks(cleaned, maxChars, overlap)|
    ensures 0 <= Offset(Step(maxChars, overlap), i) < |cleaned|
    ensures WindowChunks(cleaned, maxChars, overlap)[i]
            == WindowText(cleaned, maxChars, Offset(Step(maxChars, overlap), i))
  {
    var step := Step(maxChars, overlap);
    WindowsUnfold(cleaned, maxChars, step, 0);
    assert WindowChunks(cleaned, maxChars, overlap) == Windows(cleaned, maxChars, step, 0);
    WindowsIndex(cleaned, maxChars, step, 0, i, Offset(step, i));
  }

  /** Chunk `i` is the slice of `c` starting at `from`, and that slice holds offset `k`. */
  ghost predicate Covering(chunks: seq<string>, c: string, i: int, from: int, k: int) {
    0 <= i < |chunks| && 0 <= from <= k < from + |chunks[i]| <= |c|
    && chunks[i] == c[from..from + |chunks[i]|]
  }

  /** The windows from `start` on cover every offset `k` from `start` on: window `i`, starting at `from`. */
  lemma {:induction false} WindowsCover(c: string, maxChars: int, step: int, start: nat, k: int)
    returns (i: int, from: int)
    requires 1 <= step <= maxChars && start <= k < |c|
    ensures Covering(Windows(c, maxChars, step, start), c, i, from, k)
    decreases |c| - start
  {
    var w0 := WindowText(c, maxChars, start);
    var rest := Windows(c, maxChars, step, start + step);
    WindowsUnfold(c, maxChars, step, start);
    if k < start + step {
      i, from := 0, start;
      assert |w0| == Min(start + maxChars, |c|) - start && w0 == c[start..start + |w0|];
      CoveringFirst(w0, rest, c, start, k);
    } else {
      var j, f := WindowsCover(c, maxChars, step, start + step, k);
      i, from := j + 1, f;
      CoveringShift(w0, rest, c, j, f, k);
    }
  }

  lemma CoveringFirst(w0: string, rest: seq<string>, c: string, start: int, k: int)
    requires 0 <= start <= k < start + |w0| <= |c| && w0 == c[start..start + |w0|]
    ensures Covering([w0] + rest, c, 0, start, k)
  {
    assert ([w0] + rest)[0] == w0;
  }

  lemma CoveringShift(w0: string, rest: seq<string>, c: string, i: int, from: int, k: int)
    requires Covering(rest, c, i, from, k)
    ensures Covering([w0] + rest, c, i + 1, from, k)
  {
    assert ([w0] + rest)[i + 1] == rest[i];
  }

  /** With a non-negative overlap, every character of the normalised text lies in some chunk. */
  lemma ChunkTextCovers(cleaned: string, maxChars: int, overlap: int, k: int)
    requires maxChars >= 1 && overlap >= 0 && 0 <= k < |cleaned|
    ensures exists i, from :: Covering(WindowChunks(cleaned, maxChars, overlap), cleaned, i, from, k)
  {
    if |cleaned| <= maxChars {
      assert cleaned[0..|cleaned|] == cleaned;
      assert WindowChunks(cleaned, maxChars, overlap) == [cleaned];
      assert Covering([cleaned], cleaned, 0, 0, k);
    } else {
      var step := Step(maxChars, overlap);
      WindowsUnfold(cleaned, maxChars, step, 0);
      assert WindowChunks(cleaned, maxChars, overlap) == Windows(cleaned, maxChars, step, 0);
      var i, from := WindowsCover(cleaned, maxChars, step, 0, k);
    }
  }

  /** `ContextChunker._chunk_document`: one line-less piece per window. */
  function DocumentPieces(text: string, maxChars: int, overlap: int): seq<ChunkPiece> {
    var chunks := ChunkTextSpec(text, maxChars, overlap);
    seq(|chunks|, i requires 0 <= i < |chunks| => Whole(chunks[i]))
  }

  method ChunkDocument(text: string, maxChars: int, overlap: int) returns (pieces: seq<ChunkPiece>)
    ensures pieces == DocumentPieces(text, maxChars, overlap)
    ensures |pieces| >= 1
  {
    var chunks := ChunkText(text, maxChars, overlap);
    pieces := seq(|chunks|, i requires 0 <= i < |chunks| => Whole(chunks[i]));
  }
}
