/**
  The symbol-aware chunker of `src/context/chunking.py` (`_chunk_python_ast`):
  the top-level function and class definitions of a parsed Python file become
  pieces of their own, the module-level lines between them become `"module"`
  pieces, and blank ranges are dropped.

  The Python parser is not modelled: the chunker receives the outcome of
  `ast.parse` as a `PyParse` value. The pieces are defined over a slicing
  function `slice(start, end)`; the chunker itself uses `Slicer(lines)`, that is
  `_slice_lines` over the file's lines.
*/
module ChunkSymbols {
  import opened Maybe
  import opened PyText
  import opened StableSort
  import opened ChunkPieces

  /** A top-level statement of a parsed module, as far as the chunker looks at it. */
  datatype PyNode =
    | FunctionDef(name: string, lineno: int, endLineno: int)
    | AsyncFunctionDef(name: string, lineno: int, endLineno: int)
    | ClassDef(name: string, lineno: int, endLineno: int)
    | OtherStatement

  /** The outcome of `ast.parse(text)`. */
  datatype PyParse = SyntaxError | Module(body: seq<PyNode>)

  /** A top-level symbol: its line range and its label. */
  datatype Segment = Segment(start: int, end: int, tag: string)

  function SegmentOf(node: PyNode): seq<Segment> {
    match node
    case FunctionDef(name, s, e) => [Segment(s, e, "function " + name)]
    case AsyncFunctionDef(name, s, e) => [Segment(s, e, "function " + name)]
    case ClassDef(name, s, e) => [Segment(s, e, "class " + name)]
    case OtherStatement => []
  }

  /** The segments of the function and class definitions of `body`, in body order. */
  function Segments(body: seq<PyNode>): seq<Segment> {
    if body == [] then [] else Segments(body[..|body| - 1]) + SegmentOf(body[|body| - 1])
  }

  /** Sorting by `-start` in non-increasing order is the stable ascending sort by `start`. */
  function NegatedStart(s: Segment): int {
    -s.start
  }

  function SortedSegments(body: seq<PyNode>): seq<Segment> {
    SortDesc(Segments(body), NegatedStart)
  }

  /** A `"module"` piece for the lines `cursor .. start - 1`, when there are such lines. */
  function GapPiece(slice: (int, int) -> string, cursor: int, start: int): seq<ChunkPiece> {
    if start > cursor then PieceIf(slice(cursor, start - 1), cursor, start - 1, "module") else []
  }

  /** The segment's piece. */
  function BodyPiece(slice: (int, int) -> string, sg: Segment): seq<ChunkPiece> {
    PieceIf(slice(sg.start, sg.end), sg.start, sg.end, sg.tag)
  }

  /** A `"module"` piece for the lines from `cursor` to the last line `last`, when there are such lines. */
  function TailPiece(slice: (int, int) -> string, last: int, cursor: int): seq<ChunkPiece> {
    if cursor <= last then PieceIf(slice(cursor, last), cursor, last, "module") else []
  }

  /** The cursor after the first `k` segments: the line after the last one's end. */
  function CursorAt(segs: seq<Segment>, k: int): int
    requires 0 <= k <= |segs|
  {
    if k == 0 then 1 else segs[k - 1].end + 1
  }

  /** The pieces the cursor walk produces for the first `k` segments. */
  function Stitched(slice: (int, int) -> string, segs: seq<Segment>, k: nat): seq<ChunkPiece>
    requires k <= |segs|
  {
    if k == 0 then []
    else Stitched(slice, segs, k - 1) + GapPiece(slice, CursorAt(segs, k - 1), segs[k - 1].start)
         + BodyPiece(slice, segs[k - 1])
  }

  /** The pieces of the whole cursor walk over `segs`, the trailing module piece included. */
  function Stitch(slice: (int, int) -> string, last: int, segs: seq<Segment>): seq<ChunkPiece> {
    Stitched(slice, segs, |segs|) + TailPiece(slice, last, CursorAt(segs, |segs|))
  }

  /** What `ContextChunker._chunk_python_ast` returns. */
  function SymbolPieces(text: string, tree: PyParse): seq<ChunkPiece> {
    match tree
    case SyntaxError => [Whole(text)]
    case Module(body) =>
      var lines := SplitLines(text);
      var pieces := Stitch(Slicer(lines), |lines|, SortedSegments(body));
      if pieces == [] then [Whole(text)] else pieces
  }

  /** `ContextChunker._chunk_python_ast`: never empty. */
  method ChunkPythonAst(text: string, tree: PyParse) returns (pieces: seq<ChunkPiece>)
    ensures pieces == SymbolPieces(text, tree)
    ensures |pieces| >= 1
  {
    if tree.SyntaxError? {
      return [Whole(text)];
    }
    var lines := SplitLines(text);
    var segments := CollectSegments(tree.body);
    segments := SortDesc(segments, NegatedStart);
    pieces := StitchSegments(lines, segments);
    if pieces == [] {
      pieces := [Whole(text)];
    }
  }

  /** The first loop of `_chunk_python_ast`: a segment per top-level definition. */
  method CollectSegments(body: seq<PyNode>) returns (segments: seq<Segment>)
    ensures segments == Segments(body)
  {
    segments := [];
    var n := 0;
    while n < |body|
      invariant 0 <= n <= |body|
      invariant segments == Segments(body[..n])
    {
      assert body[..n + 1][..n] == body[..n];
      match body[n] {
        case FunctionDef(name, s, e) =>
          segments := segments + [Segment(s, e, "function " + name)];
        case AsyncFunctionDef(name, s, e) =>
          segments := segments + [Segment(s, e, "function " + name)];
        case ClassDef(name, s, e) =>
          segments := segments + [Segment(s, e, "class " + name)];
        case OtherStatement =>
      }
      n := n + 1;
    }
    assert body[..|body|] == body;
  }

  /** The cursor loop of `_chunk_python_ast`, followed by the trailing module piece. */
  method StitchSegments(lines: seq<string>, segments: seq<Segment>) returns (pieces: seq<ChunkPiece>)
    ensures pieces == Stitch(Slicer(lines), |lines|, segments)
  {
    pieces := [];
    var cursor := 1;
    var k := 0;
    while k < |segments|
      invariant 0 <= k <= |segments|
      invariant cursor == CursorAt(segments, k)
      invariant pieces == Stitched(Slicer(lines), segments, k)
    {
      var sg := segments[k];
      pieces := AppendGap(pieces, lines, cursor, sg.start);
      pieces := AppendBody(pieces, lines, sg);
      cursor := sg.end + 1;
      k := k + 1;
    }
    pieces := AppendTail(pieces, lines, cursor);
  }

  /** The module-level lines between the cursor and the next symbol, when not blank. */
  method AppendGap(pieces: seq<ChunkPiece>, lines: seq<string>, cursor: int, start: int) returns (r: seq<ChunkPiece>)
    ensures r == pieces + GapPiece(Slicer(lines), cursor, start)
  {
    r := pieces;
    if start > cursor {
      var preamble := SliceLines(lines, cursor, start - 1);
      if NonBlank(preamble) {
        r := r + [ChunkPiece(preamble, Some(cursor), Some(start - 1), Some("module"))];
      }
    }
  }

  /** The symbol's own lines, when not blank. */
  method AppendBody(pieces: seq<ChunkPiece>, lines: seq<string>, sg: Segment) returns (r: seq<ChunkPiece>)
    ensures r == pieces + BodyPiece(Slicer(lines), sg)
  {
    r := pieces;
    var block := SliceLines(lines, sg.start, sg.end);
    if NonBlank(block) {
      r := r + [ChunkPiece(block, Some(sg.start), Some(sg.end), Some(sg.tag))];
    }
  }

  /** The trailing module piece after the last symbol. */
  method AppendTail(pieces: seq<ChunkPiece>, lines: seq<string>, cursor: int) returns (r: seq<ChunkPiece>)
    ensures r == pieces + TailPiece(Slicer(lines), |lines|, cursor)
  {
    r := pieces;
    if cursor <= |lines| {
      var tail := SliceLines(lines, cursor, |lines|);
      if NonBlank(tail) {
        r := r + [ChunkPiece(tail, Some(cursor), Some(|lines|), Some("module"))];
      }
    }
  }

  // ---------------------------------------------------------------------------
  // Order

  /**
    The segments are line ranges `start <= end`, the first starting at or after
    `cursor`, each ending before the next one starts.
  */
  ghost predicate SegmentsFrom(segs: seq<Segment>, cursor: int) {
    (forall k | 0 <= k < |segs| :: segs[k].start <= segs[k].end)
    && (|segs| > 0 ==> cursor <= segs[0].start)
    && (forall k | 0 <= k < |segs| - 1 :: segs[k].end < segs[k + 1].start)
  }

  /** Over well-formed segments, each segment starts at or after the cursor left by the ones before. */
  lemma CursorBeforeSegment(segs: seq<Segment>, k: int)
    requires SegmentsFrom(segs, 1) && 0 <= k < |segs|
    ensures CursorAt(segs, k) <= segs[k].start <= segs[k].end
  {
  }

  /** The gap piece and the segment's piece, in order, between `cursor` and the segment's end. */
  lemma GapBodyInOrder(slice: (int, int) -> string, cursor: int, sg: Segment)
    requires cursor <= sg.start <= sg.end
    ensures var gb := GapPiece(slice, cursor, sg.start) + BodyPiece(slice, sg);
            InOrder(gb) && StartsAfter(gb, cursor - 1) && EndsBy(gb, sg.end)
  {
    var gap := GapPiece(slice, cursor, sg.start);
    var body := BodyPiece(slice, sg);
    if sg.start > cursor {
      PieceIfInOrder(slice(cursor, sg.start - 1), cursor, sg.start - 1, "module");
    }
    assert InOrder(gap) && StartsAfter(gap, cursor - 1) && EndsBy(gap, sg.start - 1);
    PieceIfInOrder(slice(sg.start, sg.end), sg.start, sg.end, sg.tag);
    InOrderAppend(gap, body, sg.start - 1);
    StartsAfterAppend(gap, body, cursor - 1, sg.start - 1);
    EndsByAppend(gap, body, sg.start - 1, sg.end);
  }

  /** Appending a segment's gap and body pieces keeps the pieces in order. */
  lemma StitchedStepInOrder(slice: (int, int) -> string, prev: seq<ChunkPiece>, c: int, sg: Segment)
    requires InOrder(prev) && EndsBy(prev, c - 1) && c <= sg.start <= sg.end
    ensures InOrder(prev + GapPiece(slice, c, sg.start) + BodyPiece(slice, sg))
    ensures EndsBy(prev + GapPiece(slice, c, sg.start) + BodyPiece(slice, sg), sg.end)
  {
    var gap := GapPiece(slice, c, sg.start);
    var body := BodyPiece(slice, sg);
    GapBodyInOrder(slice, c, sg);
    AppendAssoc(prev, gap, body);
    InOrderAppend(prev, gap + body, c - 1);
    EndsByAppend(prev, gap + body, c - 1, sg.end);
  }

  /**
    Over well-formed segments the pieces of the first `k` segments come out in
    ascending, disjoint line ranges, all before the cursor.
  */
  lemma {:induction false} StitchedInOrder(slice: (int, int) -> string, segs: seq<Segment>, k: nat)
    requires SegmentsFrom(segs, 1) && k <= |segs|
    ensures InOrder(Stitched(slice, segs, k))
    ensures EndsBy(Stitched(slice, segs, k), CursorAt(segs, k) - 1)
    decreases k
  {
    if k > 0 {
      StitchedInOrder(slice, segs, k - 1);
      CursorBeforeSegment(segs, k - 1);
      StitchedStepInOrder(slice, Stitched(slice, segs, k - 1), CursorAt(segs, k - 1), segs[k - 1]);
    }
  }

  /** Over well-formed segments the pieces come out in ascending, disjoint line ranges. */
  lemma StitchInOrder(slice: (int, int) -> string, last: int, segs: seq<Segment>)
    requires SegmentsFrom(segs, 1)
    ensures InOrder(Stitch(slice, last, segs))
  {
    var c := CursorAt(segs, |segs|);
    StitchedInOrder(slice, segs, |segs|);
    if c <= last {
      PieceIfInOrder(slice(c, last), c, last, "module");
    }
    InOrderAppend(Stitched(slice, segs, |segs|), TailPiece(slice, last, c), c - 1);
  }

  // ---------------------------------------------------------------------------
  // Coverage

  /** Every non-blank line before the cursor lies in one of the pieces of the first `k` segments. */
  lemma {:induction false} StitchedCovers(slice: (int, int) -> string, lines: seq<string>,
                                          segs: seq<Segment>, k: nat, l: int)
    requires SeesLines(slice, lines) && k <= |segs|
    requires l < CursorAt(segs, k) && LineNonBlank(lines, l)
    ensures Covered(Stitched(slice, segs, k), l)
    decreases k
  {
    if k > 0 {
      var prev := Stitched(slice, segs, k - 1);
      var c := CursorAt(segs, k - 1);
      var sg := segs[k - 1];
      var gap := GapPiece(slice, c, sg.start);
      var body := BodyPiece(slice, sg);
      if l < c {
        StitchedCovers(slice, lines, segs, k - 1, l);
        HoldsAppend(prev, gap, l);
      } else if l < sg.start {
        PieceIfHolds(slice(c, sg.start - 1), c, sg.start - 1, "module", l);
        HoldsAppend(prev, gap, l);
      } else {
        PieceIfHolds(slice(sg.start, sg.end), sg.start, sg.end, sg.tag, l);
      }
      HoldsAppend(prev + gap, body, l);
    }
  }

  /** Every non-blank line lies in one of the pieces, whatever the segments. */
  lemma StitchCovers(slice: (int, int) -> string, lines: seq<string>, segs: seq<Segment>, l: int)
    requires SeesLines(slice, lines) && LineNonBlank(lines, l)
    ensures Covered(Stitch(slice, |lines|, segs), l)
  {
    var c := CursorAt(segs, |segs|);
    var tail := TailPiece(slice, |lines|, c);
    if l < c {
      StitchedCovers(slice, lines, segs, |segs|, l);
    } else {
      PieceIfHolds(slice(c, |lines|), c, |lines|, "module", l);
    }
    HoldsAppend(Stitched(slice, segs, |segs|), tail, l);
  }

  // ---------------------------------------------------------------------------
  // Labels and kept symbols

  /** A piece labelled `"module"` or with the label of one of the segments. */
  predicate Labelled(p: ChunkPiece, segs: seq<Segment>) {
    p.tag == Some("module") || exists j | 0 <= j < |segs| :: p.tag == Some(segs[j].tag)
  }

  lemma {:induction false} StitchedLabels(slice: (int, int) -> string, segs: seq<Segment>, k: nat)
    requires k <= |segs|
    ensures forall p | p in Stitched(slice, segs, k) :: Labelled(p, segs)
    decreases k
  {
    if k > 0 {
      var gap := GapPiece(slice, CursorAt(segs, k - 1), segs[k - 1].start);
      var body := BodyPiece(slice, segs[k - 1]);
      StitchedLabels(slice, segs, k - 1);
      assert forall p | p in gap :: p.tag == Some("module");
      assert forall p | p in body :: p.tag == Some(segs[k - 1].tag);
    }
  }

  /** Every piece is a `"module"` piece or carries the label of one of the segments. */
  lemma StitchLabels(slice: (int, int) -> string, last: int, segs: seq<Segment>)
    ensures forall p | p in Stitch(slice, last, segs) :: Labelled(p, segs)
  {
    StitchedLabels(slice, segs, |segs|);
  }

  /** The piece of segment `k` is among the pieces of the first `n` segments, `k < n`. */
  lemma {:induction false} StitchedKeepsSegment(slice: (int, int) -> string, segs: seq<Segment>, n: nat, k: int)
    requires 0 <= k < n <= |segs|
    requires NonBlank(slice(segs[k].start, segs[k].end))
    ensures ChunkPiece(slice(segs[k].start, segs[k].end), Some(segs[k].start), Some(segs[k].end), Some(segs[k].tag))
            in Stitched(slice, segs, n)
    decreases n
  {
    var piece := ChunkPiece(slice(segs[k].start, segs[k].end), Some(segs[k].start), Some(segs[k].end), Some(segs[k].tag));
    var prev := Stitched(slice, segs, n - 1);
    var gap := GapPiece(slice, CursorAt(segs, n - 1), segs[n - 1].start);
    var body := BodyPiece(slice, segs[n - 1]);
    if n > k + 1 {
      StitchedKeepsSegment(slice, segs, n - 1, k);
    } else {
      assert body == [piece];
    }
    MemberAppend(piece, prev, gap, body);
  }

  /** A segment whose lines are not all blank gets a piece of its own, with its range and label. */
  lemma StitchKeepsSegments(slice: (int, int) -> string, last: int, segs: seq<Segment>, k: int)
    requires 0 <= k < |segs|
    requires NonBlank(slice(segs[k].start, segs[k].end))
    ensures ChunkPiece(slice(segs[k].start, segs[k].end), Some(segs[k].start), Some(segs[k].end), Some(segs[k].tag))
            in Stitch(slice, last, segs)
  {
    StitchedKeepsSegment(slice, segs, |segs|, k);
  }

  // ---------------------------------------------------------------------------
  // The chunker's result

  /** The top-level definitions of a real module: positive, ordered, non-overlapping line ranges. */
  ghost predicate WellFormedModule(body: seq<PyNode>) {
    SegmentsFrom(Segments(body), 1)
  }

  lemma {:induction false} AscendingStarts(segs: seq<Segment>, cursor: int, i: int, j: int)
    requires SegmentsFrom(segs, cursor) && 0 <= i < j < |segs|
    ensures segs[i].start < segs[j].start
    decreases j - i
  {
    if j > i + 1 {
      AscendingStarts(segs, cursor, i + 1, j);
    }
  }

  /** The sort by line does not reorder the definitions of a well-formed module. */
  lemma SortKeepsModuleOrder(body: seq<PyNode>)
    requires WellFormedModule(body)
    ensures SortedSegments(body) == Segments(body)
  {
    var segs := Segments(body);
    forall i, j | 0 <= i < j < |segs| ensures NegatedStart(segs[i]) >= NegatedStart(segs[j]) {
      AscendingStarts(segs, 1, i, j);
    }
    SortDescOfSorted(segs, NegatedStart);
  }

  /**
    For a well-formed module, the symbol-aware pieces are in ascending, disjoint
    line ranges, unless the file is kept whole.
  */
  lemma SymbolPiecesInOrder(text: string, body: seq<PyNode>)
    requires WellFormedModule(body)
    ensures InOrder(SymbolPieces(text, Module(body))) || SymbolPieces(text, Module(body)) == [Whole(text)]
  {
    var lines := SplitLines(text);
    SortKeepsModuleOrder(body);
    StitchInOrder(Slicer(lines), |lines|, Segments(body));
  }

  /** Every non-blank line of a parsed file lies in one of its symbol-aware pieces. */
  lemma SymbolPiecesCover(text: string, body: seq<PyNode>, l: int)
    requires LineNonBlank(SplitLines(text), l)
    ensures Covered(SymbolPieces(text, Module(body)), l)
  {
    var lines := SplitLines(text);
    SlicerSeesLines(lines);
    StitchCovers(Slicer(lines), lines, SortedSegments(body), l);
  }

  /**
    A top-level definition of a well-formed module whose lines are not all blank
    gets a piece of its own, with its line range and its `"function ..."` or
    `"class ..."` label.
  */
  lemma SymbolPiecesKeepDefinitions(text: string, body: seq<PyNode>, k: int)
    requires WellFormedModule(body) && 0 <= k < |Segments(body)|
    requires NonBlank(SliceLines(SplitLines(text), Segments(body)[k].start, Segments(body)[k].end))
    ensures var sg := Segments(body)[k];
            ChunkPiece(SliceLines(SplitLines(text), sg.start, sg.end), Some(sg.start), Some(sg.end), Some(sg.tag))
            in SymbolPieces(text, Module(body))
  {
    var lines := SplitLines(text);
    SortKeepsModuleOrder(body);
    StitchKeepsSegments(Slicer(lines), |lines|, Segments(body), k);
  }

  /** A file that does not parse is kept whole, as one piece without line metadata. */
  lemma SymbolPiecesSyntaxError(text: string)
    ensures SymbolPieces(text, SyntaxError) == [Whole(text)]
  {
  }
}
