/**
  The pieces a file is cut into, and what the chunkers share about them: the
  line slicing of `_slice_lines` in `src/context/chunking.py`, one optional
  piece for a line range, and the order and coverage predicates the chunkers'
  lemmas are stated with.
*/
module ChunkPieces {
  import opened Maybe
  import opened PyText

  /** A piece of a file: text, optional 1-based inclusive line range, optional label. */
  datatype ChunkPiece = ChunkPiece(text: string, startLine: Option<int>, endLine: Option<int>, tag: Option<string>)

  /** A piece carrying the whole text and no line metadata. */
  function Whole(text: string): ChunkPiece {
    ChunkPiece(text, None, None, None)
  }

  lemma AppendAssoc<T>(a: seq<T>, b: seq<T>, c: seq<T>)
    ensures (a + b) + c == a + (b + c)
  {
  }

  lemma MemberAppend<T>(x: T, a: seq<T>, b: seq<T>, c: seq<T>)
    requires x in a || x in c
    ensures x in a + b + c
  {
  }

  // ---------------------------------------------------------------------------
  // Line slices

  /** Line `l` (1-based) exists and is not blank. */
  predicate LineNonBlank(lines: seq<string>, l: int) {
    1 <= l <= |lines| && NonBlank(lines[l - 1])
  }

  /**
    `_slice_lines`: clamp `start` to at least 1 and `end` to at least `start`, join
    those lines with newlines and strip outer newlines.
  */
  function SliceLines(lines: seq<string>, start: int, end: int): string {
    var lo := if start > 1 then start else 1;
    var hi := if end > lo then end else lo;
    StripNewlines(Join(PySlice(lines, lo - 1, hi), "\n"))
  }

  /** A line slice is non-blank exactly when one of the lines in the clamped range is. */
  lemma SliceLinesNonBlank(lines: seq<string>, start: int, end: int)
    ensures var lo := if start > 1 then start else 1;
            var hi := if end > lo then end else lo;
            NonBlank(SliceLines(lines, start, end)) <==> exists l | lo <= l <= hi :: LineNonBlank(lines, l)
  {
    var lo := if start > 1 then start else 1;
    var hi := if end > lo then end else lo;
    SliceLinesBlank(lines, lo, hi, PySlice(lines, lo - 1, hi));
  }

  /** A non-blank line `l` in `start .. end` makes the slice non-blank. */
  lemma SliceLinesHolds(lines: seq<string>, start: int, end: int, l: int)
    requires start <= l <= end && LineNonBlank(lines, l)
    ensures NonBlank(SliceLines(lines, start, end))
  {
    SliceLinesNonBlank(lines, start, end);
  }

  lemma SliceLinesBlank(lines: seq<string>, lo: int, hi: int, part: seq<string>)
    requires 1 <= lo <= hi && part == PySlice(lines, lo - 1, hi)
    ensures NonBlank(StripNewlines(Join(part, "\n"))) <==> exists l | lo <= l <= hi :: LineNonBlank(lines, l)
  {
    JoinBlank(part, "\n");
    if lo - 1 <= |lines| {
      var b := if hi <= |lines| then hi else |lines|;
      assert part == lines[lo - 1..b];
      if exists l | lo <= l <= hi :: LineNonBlank(lines, l) {
        var l :| lo <= l <= hi && LineNonBlank(lines, l);
        assert part[l - lo] == lines[l - 1];
      }
      if !IsBlank(Join(part, "\n")) {
        var k :| 0 <= k < |part| && !IsBlank(part[k]);
        assert part[k] == lines[lo - 1 + k];
        assert LineNonBlank(lines, lo + k);
      }
    } else {
      assert part == [];
    }
  }

  /**
    `_slice_lines` over a fixed file: the chunkers are written against a slicing
    function, and this is the one `_chunk_python_ast` and `_chunk_generic_code` use.
  */
  function Slicer(lines: seq<string>): (int, int) -> string {
    (start, end) => SliceLines(lines, start, end)
  }

  /** The slice of any range that holds a non-blank line of `lines` is not blank. */
  ghost predicate SeesLines(slice: (int, int) -> string, lines: seq<string>) {
    forall s, e, l | s <= l <= e && LineNonBlank(lines, l) :: NonBlank(slice(s, e))
  }

  lemma SlicerSeesLines(lines: seq<string>)
    ensures SeesLines(Slicer(lines), lines)
  {
    forall s, e, l | s <= l <= e && LineNonBlank(lines, l) ensures NonBlank(Slicer(lines)(s, e)) {
      SliceLinesHolds(lines, s, e, l);
    }
  }

  // ---------------------------------------------------------------------------
  // Located pieces

  /** One piece for non-blank text, with its line range and label; nothing for blank text. */
  function PieceIf(t: string, s: int, e: int, tag: string): seq<ChunkPiece> {
    if NonBlank(t) then [ChunkPiece(t, Some(s), Some(e), Some(tag))] else []
  }

  /** A piece with a line range `start <= end`. */
  predicate Located(p: ChunkPiece) {
    p.startLine.Some? && p.endLine.Some? && p.startLine.value <= p.endLine.value
  }

  /** Every piece is located, and the ranges are disjoint and ascending. */
  ghost predicate InOrder(ps: seq<ChunkPiece>) {
    (forall i | 0 <= i < |ps| :: Located(ps[i]))
    && forall i, j | 0 <= i < j < |ps| && Located(ps[i]) && Located(ps[j]) ::
         ps[i].endLine.value < ps[j].startLine.value
  }

  /** Every piece is located and starts after line `x`. */
  ghost predicate StartsAfter(ps: seq<ChunkPiece>, x: int) {
    forall i | 0 <= i < |ps| :: Located(ps[i]) && ps[i].startLine.value > x
  }

  /** Every piece is located and ends by line `x`. */
  ghost predicate EndsBy(ps: seq<ChunkPiece>, x: int) {
    forall i | 0 <= i < |ps| :: Located(ps[i]) && ps[i].endLine.value <= x
  }

  /** Piece `p` is located and its line range holds line `l`. */
  predicate Holds(p: ChunkPiece, l: int) {
    Located(p) && p.startLine.value <= l <= p.endLine.value
  }

  /** Some piece of `ps` holds line `l`. */
  ghost predicate Covered(ps: seq<ChunkPiece>, l: int) {
    exists i | 0 <= i < |ps| :: Holds(ps[i], l)
  }

  lemma PieceIfInOrder(t: string, s: int, e: int, tag: string)
    requires s <= e
    ensures InOrder(PieceIf(t, s, e, tag))
    ensures StartsAfter(PieceIf(t, s, e, tag), s - 1)
    ensures EndsBy(PieceIf(t, s, e, tag), e)
  {
  }

  lemma PieceIfHolds(t: string, s: int, e: int, tag: string, l: int)
    requires s <= l <= e && NonBlank(t)
    ensures Covered(PieceIf(t, s, e, tag), l)
  {
    assert Holds(PieceIf(t, s, e, tag)[0], l);
  }

  lemma InOrderAppend(a: seq<ChunkPiece>, b: seq<ChunkPiece>, x: int)
    requires InOrder(a) && InOrder(b) && EndsBy(a, x) && StartsAfter(b, x)
    ensures InOrder(a + b)
  {
    var ab := a + b;
    forall i | 0 <= i < |ab| ensures Located(ab[i]) {
      if i < |a| { assert ab[i] == a[i]; } else { assert ab[i] == b[i - |a|]; }
    }
    forall i, j | 0 <= i < j < |ab| && Located(ab[i]) && Located(ab[j])
      ensures ab[i].endLine.value < ab[j].startLine.value
    {
      if j < |a| {
        assert ab[i] == a[i] && ab[j] == a[j];
      } else if i >= |a| {
        assert ab[i] == b[i - |a|] && ab[j] == b[j - |a|];
      } else {
        assert ab[i] == a[i] && ab[j] == b[j - |a|];
      }
    }
  }

  lemma StartsAfterAppend(a: seq<ChunkPiece>, b: seq<ChunkPiece>, x: int, y: int)
    requires StartsAfter(a, x) && StartsAfter(b, y) && x <= y
    ensures StartsAfter(a + b, x)
  {
    forall i | 0 <= i < |a + b| ensures Located((a + b)[i]) && (a + b)[i].startLine.value > x {
      if i < |a| { assert (a + b)[i] == a[i]; } else { assert (a + b)[i] == b[i - |a|]; }
    }
  }

  lemma EndsByAppend(a: seq<ChunkPiece>, b: seq<ChunkPiece>, x: int, y: int)
    requires EndsBy(a, x) && EndsBy(b, y) && x <= y
    ensures EndsBy(a + b, y)
  {
    forall i | 0 <= i < |a + b| ensures Located((a + b)[i]) && (a + b)[i].endLine.value <= y {
      if i < |a| { assert (a + b)[i] == a[i]; } else { assert (a + b)[i] == b[i - |a|]; }
    }
  }

  lemma HoldsAppend(a: seq<ChunkPiece>, b: seq<ChunkPiece>, l: int)
    requires Covered(a, l) || Covered(b, l)
    ensures Covered(a + b, l)
  {
    if i :| 0 <= i < |a| && Holds(a[i], l) {
      assert (a + b)[i] == a[i];
    } else {
      var i :| 0 <= i < |b| && Holds(b[i], l);
      assert (a + b)[|a| + i] == b[i];
    }
  }

  lemma ExtendInOrder(prev: seq<ChunkPiece>, next: seq<ChunkPiece>, lo: int, x: int, e: int)
    requires InOrder(prev) && StartsAfter(prev, lo) && EndsBy(prev, x)
    requires InOrder(next) && StartsAfter(next, x) && EndsBy(next, e) && lo <= x <= e
    ensures InOrder(prev + next) && StartsAfter(prev + next, lo) && EndsBy(prev + next, e)
  {
    InOrderAppend(prev, next, x);
    StartsAfterAppend(prev, next, lo, x);
    EndsByAppend(prev, next, x, e);
  }
}
