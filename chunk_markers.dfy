/**
  The declaration-marker chunker of `src/context/chunking.py`
  (`_chunk_generic_code`), used for code that is not Python: every line the
  declaration pattern matches starts a block that runs to the line before the
  next such line (or to the last line), and the lines before the first marker
  form a `"module"` piece.

  The regular expression is not modelled: the chunker receives the pattern's
  verdict on a line as `isMarker`. The pieces are defined over a slicing function
  `slice(start, end)` and the number of lines `last`; the chunker itself uses
  `Slicer(lines)` and `|lines|`.
*/
module ChunkMarkers {
  import opened Maybe
  import opened PyText
  import opened ChunkPieces

  /** A declaration line: its 1-based number and its stripped text. */
  datatype Marker = Marker(line: int, text: string)

  /**
    The markers among the first `n` lines, each named by `name` applied to its
    line. The chunker labels with `Strip`; the facts below hold for any naming.
  */
  function MarkersBy(lines: seq<string>, isMarker: string -> bool, name: string -> string, n: nat): seq<Marker>
    requires n <= |lines|
  {
    if n == 0 then []
    else MarkersBy(lines, isMarker, name, n - 1)
         + (if isMarker(lines[n - 1]) then [Marker(n, name(lines[n - 1]))] else [])
  }

  /** The markers among the first `n` lines, labelled with their stripped text. */
  function MarkersUpTo(lines: seq<string>, isMarker: string -> bool, n: nat): seq<Marker>
    requires n <= |lines|
  {
    MarkersBy(lines, isMarker, Strip, n)
  }

  /** Each marker is one of the first `n` lines, and one the pattern accepts. */
  lemma {:induction false} MarkersWithin(lines: seq<string>, isMarker: string -> bool, name: string -> string, n: nat)
    requires n <= |lines|
    ensures forall m | m in MarkersBy(lines, isMarker, name, n) :: 1 <= m.line <= n && isMarker(lines[m.line - 1])
  {
    if n > 0 {
      MarkersWithin(lines, isMarker, name, n - 1);
    }
  }

  /** Each marker is named by its line. */
  lemma {:induction false} MarkersText(lines: seq<string>, isMarker: string -> bool, name: string -> string, n: nat)
    requires n <= |lines|
    ensures forall m | m in MarkersBy(lines, isMarker, name, n) ::
              1 <= m.line <= n && m.text == name(lines[m.line - 1])
  {
    if n > 0 {
      MarkersText(lines, isMarker, name, n - 1);
    }
  }

  /** Every line the pattern accepts is a marker. */
  lemma {:induction false} MarkersComplete(lines: seq<string>, isMarker: string -> bool, name: string -> string, n: nat, l: int)
    requires 1 <= l <= n <= |lines| && isMarker(lines[l - 1])
    ensures Marker(l, name(lines[l - 1])) in MarkersBy(lines, isMarker, name, n)
    decreases n
  {
    if l < n {
      MarkersComplete(lines, isMarker, name, n - 1, l);
    }
  }

  /** Strictly ascending line order. */
  ghost predicate Ascending(ms: seq<Marker>) {
    forall k | 0 <= k < |ms| - 1 :: ms[k].line < ms[k + 1].line
  }

  /** Markers come in strictly ascending line order. */
  lemma {:induction false} MarkersAscending(lines: seq<string>, isMarker: string -> bool, name: string -> string, n: nat)
    requires n <= |lines|
    ensures Ascending(MarkersBy(lines, isMarker, name, n))
  {
    if n > 0 {
      var prev := MarkersBy(lines, isMarker, name, n - 1);
      MarkersAscending(lines, isMarker, name, n - 1);
      MarkersWithin(lines, isMarker, name, n - 1);
      var ms := MarkersBy(lines, isMarker, name, n);
      if isMarker(lines[n - 1]) {
        assert |ms| == |prev| + 1 && ms[|prev|].line == n;
        forall k | 0 <= k < |ms| - 1 ensures ms[k].line < ms[k + 1].line {
          assert ms[k] == prev[k];
          if k + 1 < |prev| {
            assert ms[k + 1] == prev[k + 1];
          } else {
            assert prev[k] in prev;
          }
        }
      } else {
        assert ms == prev;
      }
    }
  }

  /** Markers of a file of `last` lines: within the file and in strictly ascending order. */
  ghost predicate MarkersOf(last: int, ms: seq<Marker>) {
    (forall k | 0 <= k < |ms| :: 1 <= ms[k].line <= last) && Ascending(ms)
  }

  lemma MarkersUpToOf(lines: seq<string>, isMarker: string -> bool)
    ensures MarkersOf(|lines|, MarkersUpTo(lines, isMarker, |lines|))
  {
    var ms := MarkersUpTo(lines, isMarker, |lines|);
    MarkersWithin(lines, isMarker, Strip, |lines|);
    MarkersAscending(lines, isMarker, Strip, |lines|);
    assert forall k | 0 <= k < |ms| :: ms[k] in ms;
  }

  // ---------------------------------------------------------------------------
  // Blocks

  /** The last line of marker `k`'s block: the line before the next marker, or the last line. */
  function BlockEnd(last: int, ms: seq<Marker>, k: int): int
    requires 0 <= k < |ms|
  {
    (if k + 1 < |ms| then ms[k + 1].line else last + 1) - 1
  }

  /** The block's label: the stripped declaration line, or `"symbol"` when that is empty. */
  function BlockLabel(m: Marker): string {
    if m.text == "" then "symbol" else m.text
  }

  function BlockPiece(slice: (int, int) -> string, last: int, ms: seq<Marker>, k: int): seq<ChunkPiece>
    requires 0 <= k < |ms|
  {
    PieceIf(slice(ms[k].line, BlockEnd(last, ms, k)), ms[k].line, BlockEnd(last, ms, k), BlockLabel(ms[k]))
  }

  /** The pieces of the blocks of the first `k` markers. */
  function Blocks(slice: (int, int) -> string, last: int, ms: seq<Marker>, k: nat): seq<ChunkPiece>
    requires k <= |ms|
  {
    if k == 0 then [] else Blocks(slice, last, ms, k - 1) + BlockPiece(slice, last, ms, k - 1)
  }

  /** One more marker adds its block. */
  lemma BlocksStep(slice: (int, int) -> string, last: int, ms: seq<Marker>, k: nat)
    requires k < |ms|
    ensures Blocks(slice, last, ms, k + 1) == Blocks(slice, last, ms, k) + BlockPiece(slice, last, ms, k)
  {
  }

  /** The `"module"` piece for the lines before the first marker. */
  function PreamblePiece(slice: (int, int) -> string, first: int): seq<ChunkPiece> {
    if first > 1 then PieceIf(slice(1, first - 1), 1, first - 1, "module") else []
  }

  /** What `ContextChunker._chunk_generic_code` returns. */
  function MarkerPieces(text: string, isMarker: string -> bool): seq<ChunkPiece> {
    var lines := SplitLines(text);
    var ms := MarkersUpTo(lines, isMarker, |lines|);
    if ms == [] then [Whole(text)]
    else
      var pieces := PreamblePiece(Slicer(lines), ms[0].line) + Blocks(Slicer(lines), |lines|, ms, |ms|);
      if pieces == [] then [Whole(text)] else pieces
  }

  /** `ContextChunker._chunk_generic_code`: never empty. */
  method ChunkGenericCode(text: string, isMarker: string -> bool) returns (pieces: seq<ChunkPiece>)
    ensures pieces == MarkerPieces(text, isMarker)
    ensures |pieces| >= 1
  {
    var lines := SplitLines(text);
    var markers := CollectMarkers(lines, isMarker);
    if markers == [] {
      return [Whole(text)];
    }
    pieces := Preamble(lines, markers[0].line);
    var blocks := MarkerBlocks(lines, markers);
    pieces := pieces + blocks;
    if pieces == [] {
      pieces := [Whole(text)];
    }
  }

  /** The `"module"` piece for the lines before the first marker, when not blank. */
  method Preamble(lines: seq<string>, first: int) returns (pieces: seq<ChunkPiece>)
    ensures pieces == PreamblePiece(Slicer(lines), first)
  {
    pieces := [];
    if first > 1 {
      var prefix := SliceLines(lines, 1, first - 1);
      if NonBlank(prefix) {
        pieces := [ChunkPiece(prefix, Some(1), Some(first - 1), Some("module"))];
      }
    }
  }

  /** The marker loop of `_chunk_generic_code`. */
  method CollectMarkers(lines: seq<string>, isMarker: string -> bool) returns (markers: seq<Marker>)
    ensures markers == MarkersUpTo(lines, isMarker, |lines|)
  {
    markers := [];
    var idx := 0;
    while idx < |lines|
      invariant 0 <= idx <= |lines|
      invariant markers == MarkersUpTo(lines, isMarker, idx)
    {
      if isMarker(lines[idx]) {
        markers := markers + [Marker(idx + 1, Strip(lines[idx]))];
      }
      idx := idx + 1;
    }
  }

  /** The block loop of `_chunk_generic_code`: each marker's lines up to the next marker. */
  method MarkerBlocks(lines: seq<string>, markers: seq<Marker>) returns (pieces: seq<ChunkPiece>)
    ensures pieces == Blocks(Slicer(lines), |lines|, markers, |markers|)
  {
    pieces := [];
    var k := 0;
    while k < |markers|
      invariant 0 <= k <= |markers|
      invariant pieces == Blocks(Slicer(lines), |lines|, markers, k)
    {
      BlocksStep(Slicer(lines), |lines|, markers, k);
      pieces := AppendBlock(pieces, lines, markers, k);
      k := k + 1;
    }
  }

  /** One iteration of the block loop: marker `k`'s block, skipped when blank. */
  method AppendBlock(pieces: seq<ChunkPiece>, lines: seq<string>, markers: seq<Marker>, k: int)
    returns (r: seq<ChunkPiece>)
    requires 0 <= k < |markers|
    ensures r == pieces + BlockPiece(Slicer(lines), |lines|, markers, k)
  {
    r := pieces;
    var start := markers[k].line;
    var end := (if k + 1 < |markers| then markers[k + 1].line else |lines| + 1) - 1;
    var snippet := SliceLines(lines, start, end);
    if NonBlank(snippet) {
      var name := if markers[k].text == "" then "symbol" else markers[k].text;
      r := r + [ChunkPiece(snippet, Some(start), Some(end), Some(name))];
    }
  }

  // ---------------------------------------------------------------------------
  // Order and coverage

  /** The line just before the `k`-th marker, or the last line when `k` is past the markers. */
  function Edge(last: int, ms: seq<Marker>, k: int): int
    requires 0 <= k <= |ms|
  {
    (if k < |ms| then ms[k].line else last + 1) - 1
  }

  lemma {:induction false} AscendingFirst(ms: seq<Marker>, k: int)
    requires Ascending(ms) && 0 < k < |ms|
    ensures ms[0].line < ms[k].line
    decreases k
  {
    if k > 1 {
      AscendingFirst(ms, k - 1);
    }
  }

  /** Within the file, each block runs from its marker to the line before the next one. */
  lemma BlockBounds(last: int, ms: seq<Marker>, k: int)
    requires MarkersOf(last, ms) && 0 <= k < |ms|
    ensures ms[0].line - 1 <= Edge(last, ms, k) == ms[k].line - 1
    ensures ms[k].line <= BlockEnd(last, ms, k) == Edge(last, ms, k + 1)
  {
    if k > 0 {
      AscendingFirst(ms, k);
    }
  }

  /**
    The blocks of the first `k` markers are in ascending, disjoint line ranges,
    from the first marker up to the line before marker `k`.
  */
  lemma {:induction false} BlocksInOrder(slice: (int, int) -> string, last: int, ms: seq<Marker>, k: nat)
    requires 0 < |ms| && k <= |ms| && MarkersOf(last, ms)
    ensures InOrder(Blocks(slice, last, ms, k))
    ensures StartsAfter(Blocks(slice, last, ms, k), ms[0].line - 1)
    ensures EndsBy(Blocks(slice, last, ms, k), Edge(last, ms, k))
    decreases k
  {
    if k > 0 {
      BlocksInOrder(slice, last, ms, k - 1);
      BlockBounds(last, ms, k - 1);
      var e := BlockEnd(last, ms, k - 1);
      PieceIfInOrder(slice(ms[k - 1].line, e), ms[k - 1].line, e, BlockLabel(ms[k - 1]));
      ExtendInOrder(Blocks(slice, last, ms, k - 1), BlockPiece(slice, last, ms, k - 1),
                    ms[0].line - 1, Edge(last, ms, k - 1), e);
    }
  }

  /** Every non-blank line from the first marker up to the line before marker `k` lies in a block. */
  lemma {:induction false} BlocksCover(slice: (int, int) -> string, lines: seq<string>, ms: seq<Marker>, k: nat, l: int)
    requires SeesLines(slice, lines)
    requires 0 < |ms| && k <= |ms| && MarkersOf(|lines|, ms)
    requires ms[0].line <= l <= Edge(|lines|, ms, k) && LineNonBlank(lines, l)
    ensures Covered(Blocks(slice, |lines|, ms, k), l)
    decreases k
  {
    if k > 0 {
      BlockBounds(|lines|, ms, k - 1);
      var e := BlockEnd(|lines|, ms, k - 1);
      if l <= Edge(|lines|, ms, k - 1) {
        BlocksCover(slice, lines, ms, k - 1, l);
      } else {
        PieceIfHolds(slice(ms[k - 1].line, e), ms[k - 1].line, e, BlockLabel(ms[k - 1]), l);
      }
      HoldsAppend(Blocks(slice, |lines|, ms, k - 1), BlockPiece(slice, |lines|, ms, k - 1), l);
    }
  }

  /** The preamble and the blocks are in order, and cover every non-blank line of the file. */
  lemma MarkedInOrderAndCovering(slice: (int, int) -> string, lines: seq<string>, ms: seq<Marker>, l: int)
    requires SeesLines(slice, lines) && 0 < |ms| && MarkersOf(|lines|, ms)
    requires LineNonBlank(lines, l)
    ensures InOrder(PreamblePiece(slice, ms[0].line) + Blocks(slice, |lines|, ms, |ms|))
    ensures Covered(PreamblePiece(slice, ms[0].line) + Blocks(slice, |lines|, ms, |ms|), l)
  {
    var pre := PreamblePiece(slice, ms[0].line);
    var blocks := Blocks(slice, |lines|, ms, |ms|);
    if ms[0].line > 1 {
      PieceIfInOrder(slice(1, ms[0].line - 1), 1, ms[0].line - 1, "module");
    }
    BlocksInOrder(slice, |lines|, ms, |ms|);
    InOrderAppend(pre, blocks, ms[0].line - 1);
    if l < ms[0].line {
      PieceIfHolds(slice(1, ms[0].line - 1), 1, ms[0].line - 1, "module", l);
    } else {
      BlocksCover(slice, lines, ms, |ms|, l);
    }
    HoldsAppend(pre, blocks, l);
  }

  /**
    When the file has markers, the marker-based pieces are in ascending, disjoint
    line ranges and every non-blank line lies in one of them.
  */
  lemma MarkerPiecesInOrderAndCovering(text: string, isMarker: string -> bool, l: int)
    requires MarkersUpTo(SplitLines(text), isMarker, |SplitLines(text)|) != []
    requires LineNonBlank(SplitLines(text), l)
    ensures InOrder(MarkerPieces(text, isMarker))
    ensures Covered(MarkerPieces(text, isMarker), l)
  {
    var lines := SplitLines(text);
    var ms := MarkersUpTo(lines, isMarker, |lines|);
    MarkersUpToOf(lines, isMarker);
    SlicerSeesLines(lines);
    MarkedInOrderAndCovering(Slicer(lines), lines, ms, l);
  }

  /** The block of marker `k < n`, when not blank, is among the pieces of the first `n` blocks. */
  lemma {:induction false} BlocksKeepMarker(slice: (int, int) -> string, last: int, ms: seq<Marker>, n: nat, k: int)
    requires 0 <= k < n <= |ms|
    requires NonBlank(slice(ms[k].line, BlockEnd(last, ms, k)))
    ensures ChunkPiece(slice(ms[k].line, BlockEnd(last, ms, k)),
                       Some(ms[k].line), Some(BlockEnd(last, ms, k)), Some(BlockLabel(ms[k])))
            in Blocks(slice, last, ms, n)
    decreases n
  {
    var piece := ChunkPiece(slice(ms[k].line, BlockEnd(last, ms, k)),
                            Some(ms[k].line), Some(BlockEnd(last, ms, k)), Some(BlockLabel(ms[k])));
    if n > k + 1 {
      BlocksKeepMarker(slice, last, ms, n - 1, k);
    } else {
      assert BlockPiece(slice, last, ms, k) == [piece];
    }
    MemberAppend(piece, Blocks(slice, last, ms, n - 1), [], BlockPiece(slice, last, ms, n - 1));
  }

  /**
    A marker whose block is not blank gets a piece of its own: from its line to the
    line before the next marker (or the last line), labelled with the stripped
    declaration line or `"symbol"`.
  */
  lemma MarkerPiecesKeepBlocks(text: string, isMarker: string -> bool, k: int)
    requires var lines := SplitLines(text);
             var ms := MarkersUpTo(lines, isMarker, |lines|);
             0 <= k < |ms| && NonBlank(SliceLines(lines, ms[k].line, BlockEnd(|lines|, ms, k)))
    ensures var lines := SplitLines(text);
            var ms := MarkersUpTo(lines, isMarker, |lines|);
            ChunkPiece(SliceLines(lines, ms[k].line, BlockEnd(|lines|, ms, k)), Some(ms[k].line),
                       Some(BlockEnd(|lines|, ms, k)), Some(BlockLabel(ms[k])))
            in MarkerPieces(text, isMarker)
  {
    var lines := SplitLines(text);
    var ms := MarkersUpTo(lines, isMarker, |lines|);
    MarkedKeepsBlock(Slicer(lines), |lines|, ms, k);
  }

  lemma MarkedKeepsBlock(slice: (int, int) -> string, last: int, ms: seq<Marker>, k: int)
    requires 0 <= k < |ms| && NonBlank(slice(ms[k].line, BlockEnd(last, ms, k)))
    ensures ChunkPiece(slice(ms[k].line, BlockEnd(last, ms, k)), Some(ms[k].line),
                       Some(BlockEnd(last, ms, k)), Some(BlockLabel(ms[k])))
            in PreamblePiece(slice, ms[0].line) + Blocks(slice, last, ms, |ms|)
  {
    var piece := ChunkPiece(slice(ms[k].line, BlockEnd(last, ms, k)),
                            Some(ms[k].line), Some(BlockEnd(last, ms, k)), Some(BlockLabel(ms[k])));
    BlocksKeepMarker(slice, last, ms, |ms|, k);
    MemberAppend(piece, [], PreamblePiece(slice, ms[0].line), Blocks(slice, last, ms, |ms|));
    assert [] + PreamblePiece(slice, ms[0].line) + Blocks(slice, last, ms, |ms|)
        == PreamblePiece(slice, ms[0].line) + Blocks(slice, last, ms, |ms|);
  }

  /** A file without declaration lines is kept whole. */
  lemma MarkerPiecesWithoutMarkers(text: string, isMarker: string -> bool)
    requires forall line | line in SplitLines(text) :: !isMarker(line)
    ensures MarkerPieces(text, isMarker) == [Whole(text)]
  {
    var lines := SplitLines(text);
    MarkersWithin(lines, isMarker, Strip, |lines|);
  }
}
