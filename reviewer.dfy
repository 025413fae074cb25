/**
  The pure parts of `src/reviewer.py`: `DiffParser.split`, which cuts a
  unified diff into one chunk per file, the selection of the first
  `max_files` chunks in `review_async`, and the summary and total built from
  the per-file reviews.

  Each per-file review comes from a chat completion that also sees the
  retrieved repository context; here it is the parameter `reviewFile`, which
  returns the already validated review of a chunk.
*/
module Reviewer {
  import opened Maybe
  import opened PyText
  import opened ReviewModels

  /** `ReviewChunk`: one file's part of the diff. */
  datatype ReviewChunk = ReviewChunk(filePath: string, diffText: string)

  /** The text `re.split` cuts at, and which every chunk starts with. */
  const DiffMarker: string := "diff --git "

  // ---------------------------------------------------------------------------
  // re.split(r"(?m)^diff --git ", unified_diff)

  /** `^diff --git ` in multi-line mode matches at `i`: a line start followed by the marker. */
  predicate MarkerAt(s: string, i: int) {
    0 <= i && i + |DiffMarker| <= |s| && (i == 0 || s[i - 1] == '\n')
    && s[i..i + |DiffMarker|] == DiffMarker
  }

  /** The first match at or after `from`, or `|s|` when there is none. */
  function NextMarker(s: string, from: nat): (m: nat)
    requires from <= |s|
    ensures from <= m <= |s|
    ensures m < |s| ==> MarkerAt(s, m)
    ensures forall i | from <= i < m :: !MarkerAt(s, i)
    decreases |s| - from
  {
    if from == |s| then |s|
    else if MarkerAt(s, from) then from
    else NextMarker(s, from + 1)
  }

  /**
    The parts `re.split` returns for `s[from:]`, with line starts judged in
    the whole of `s`: the text before each match, then the text after the last.
  */
  function SplitParts(s: string, from: nat): (parts: seq<string>)
    requires from <= |s|
    ensures |parts| >= 1
    decreases |s| - from
  {
    var m := NextMarker(s, from);
    if m == |s| then [s[from..]] else [s[from..m]] + SplitParts(s, m + |DiffMarker|)
  }

  /** Joining the parts with the marker gives back the text: the split loses nothing. */
  lemma {:induction false} SplitPartsJoin(s: string, from: nat)
    requires from <= |s|
    ensures Join(SplitParts(s, from), DiffMarker) == s[from..]
    decreases |s| - from
  {
    var m := NextMarker(s, from);
    if m < |s| {
      var next := m + |DiffMarker|;
      SplitPartsJoin(s, next);
      SplitPartsStep(s, from);
      JoinCons(s[from..m], SplitParts(s, next), DiffMarker);
      SliceThree(s, from, m, next);
    }
  }

  lemma SliceThree(s: string, i: nat, j: nat, k: nat)
    requires i <= j <= k <= |s|
    ensures s[i..] == s[i..j] + s[j..k] + s[k..]
  {
  }

  /** A match at `m` ends the first part; the split goes on after the marker. */
  lemma SplitPartsStep(s: string, from: nat)
    requires from <= |s| && NextMarker(s, from) < |s|
    ensures var m := NextMarker(s, from);
            && SplitParts(s, from) == [s[from..m]] + SplitParts(s, m + |DiffMarker|)
            && s[m..m + |DiffMarker|] == DiffMarker
  {
  }

  /** Only a non-whitespace character can start a match. */
  lemma BlankHasNoMarker(s: string, from: nat)
    requires from <= |s| && IsBlank(s)
    ensures SplitParts(s, from) == [s[from..]]
  {
    BlankAll(s);
    forall i | 0 <= i < |s| ensures !MarkerAt(s, i) {
      if i + |DiffMarker| <= |s| {
        assert IsSpace(s[i..i + |DiffMarker|][0]);
      }
    }
    assert NextMarker(s, from) == |s|;
  }

  // ---------------------------------------------------------------------------
  // The file path: _FILE_PATTERN.search("diff --git " + header)

  /** End of the run of non-whitespace characters that starts at `i`. */
  function RunEnd(s: string, i: nat): (j: nat)
    requires i <= |s|
    ensures i <= j <= |s|
    ensures forall k | i <= k < j :: !IsSpace(s[k])
    ensures j < |s| ==> IsSpace(s[j])
    decreases |s| - i
  {
    if i < |s| && !IsSpace(s[i]) then RunEnd(s, i + 1) else i
  }

  /** A run of non-whitespace that stops at `j` ends at `j`. */
  lemma {:induction false} RunEndAt(s: string, i: nat, j: nat)
    requires i <= j <= |s|
    requires forall k | i <= k < j :: !IsSpace(s[k])
    requires j < |s| ==> IsSpace(s[j])
    ensures RunEnd(s, i) == j
    decreases j - i
  {
    if i < j {
      RunEndAt(s, i + 1, j);
    }
  }

  /**
    `\sa/([^\s]+)\sb/([^\s]+)` matched at `i`, giving its second group. Both
    groups are greedy runs of non-whitespace; the first must be followed by
    whitespace, so it is the longest run.
  */
  function MatchAt(s: string, i: nat): (g: Option<string>)
    requires i <= |s|
  {
    if i + 3 <= |s| && IsSpace(s[i]) && s[i + 1] == 'a' && s[i + 2] == '/' then
      var j := RunEnd(s, i + 3);
      if i + 3 < j && j + 3 <= |s| && s[j + 1] == 'b' && s[j + 2] == '/' then
        var k := RunEnd(s, j + 3);
        if j + 3 < k then Some(s[j + 3..k]) else None
      else None
    else None
  }

  /** `pattern.search(s[i:])`: the match that starts leftmost. */
  function SearchFrom(s: string, i: nat): (g: Option<string>)
    requires i <= |s|
    decreases |s| - i
  {
    if MatchAt(s, i).Some? then MatchAt(s, i)
    else if i == |s| then None
    else SearchFrom(s, i + 1)
  }

  /** The path of a chunk: the `b/` path when the header matches, else the stripped header. */
  function HeaderPath(header: string): string {
    match SearchFrom(DiffMarker + header, 0)
    case Some(path) => path
    case None => Strip(header)
  }

  /** No match starts inside the marker itself. */
  lemma NoMatchInMarker(s: string, i: nat)
    requires StartsWith(s, DiffMarker) && i < |DiffMarker| - 1
    ensures MatchAt(s, i).None?
  {
    assert s[..|DiffMarker|] == DiffMarker;
    assert s[i] == DiffMarker[i];
    if i == 4 {
      assert s[i + 1] == DiffMarker[5] == '-';
    } else {
      assert !IsSpace(DiffMarker[i]);
    }
  }

  /** For `a/<p> b/<q>`, with no whitespace in `p` or `q`, the path is `q`. */
  lemma HeaderPathOfGitHeader(p: string, q: string)
    requires p != [] && q != []
    requires forall k | 0 <= k < |p| :: !IsSpace(p[k])
    requires forall k | 0 <= k < |q| :: !IsSpace(q[k])
    ensures HeaderPath("a/" + p + " b/" + q) == q
  {
    var s := DiffMarker + ("a/" + p + " b/" + q);
    var n := |DiffMarker|;
    var j := n + 2 + |p|;
    assert s == DiffMarker + "a/" + p + " b/" + q;
    assert s[n - 1] == ' ' && s[n] == 'a' && s[n + 1] == '/';
    assert forall k | n + 2 <= k < j :: s[k] == p[k - n - 2];
    assert s[j] == ' ' && s[j + 1] == 'b' && s[j + 2] == '/';
    assert s[j + 3..] == q;
    GitHeaderMatch(s, n - 1, j);
    SearchSkipsMarker(s, n - 1);
  }

  /** A space, `a/`, a run without whitespace, a space, `b/` and a final run match at `i`. */
  lemma GitHeaderMatch(s: string, i: nat, j: nat)
    requires i + 3 < j && j + 3 < |s|
    requires IsSpace(s[i]) && s[i + 1] == 'a' && s[i + 2] == '/'
    requires forall k | i + 3 <= k < j :: !IsSpace(s[k])
    requires IsSpace(s[j]) && s[j + 1] == 'b' && s[j + 2] == '/'
    requires forall k | j + 3 <= k < |s| :: !IsSpace(s[k])
    ensures MatchAt(s, i) == Some(s[j + 3..])
  {
    RunEndAt(s, i + 3, j);
    RunEndAt(s, j + 3, |s|);
    assert s[j + 3..|s|] == s[j + 3..];
  }

  /** A search from the start finds the match at `i` when no earlier position matches. */
  lemma {:induction false} SearchSkipsMarker(s: string, i: nat)
    requires StartsWith(s, DiffMarker) && i < |DiffMarker| && MatchAt(s, i).Some?
    ensures SearchFrom(s, 0) == MatchAt(s, i)
  {
    var k := i;
    while k > 0
      invariant 0 <= k <= i
      invariant SearchFrom(s, k) == MatchAt(s, i)
    {
      NoMatchInMarker(s, k - 1);
      k := k - 1;
    }
  }

  // ---------------------------------------------------------------------------
  // DiffParser.split

  /** One kept part as a chunk; the marker `re.split` removed is put back in front. */
  function ChunkOf(part: string): (c: ReviewChunk)
    requires part != []
    ensures StartsWith(c.diffText, DiffMarker)
    ensures c.filePath == HeaderPath(SplitLines(part)[0])
  {
    var header := SplitLines(part)[0];
    var text := if StartsWith(part, DiffMarker) then part else DiffMarker + part;
    ReviewChunk(HeaderPath(header), text)
  }

  /** The chunks of the parts `parts`: one for each part that is not blank, in order. */
  function ChunksOf(parts: seq<string>): seq<ReviewChunk> {
    if parts == [] then []
    else
      var last := parts[|parts| - 1];
      ChunksOf(parts[..|parts| - 1]) + (if NonBlank(last) then [ChunkOf(last)] else [])
  }

  /** The chunks `split` returns for `unifiedDiff`. */
  function DiffChunks(unifiedDiff: string): seq<ReviewChunk> {
    ChunksOf(SplitParts(unifiedDiff, 0))
  }

  /**
    Every chunk's text starts with the marker, and there are at most as many
    chunks as parts.
  */
  lemma {:induction false} ChunksOfSpec(parts: seq<string>)
    ensures |ChunksOf(parts)| <= |parts|
    ensures forall k | 0 <= k < |ChunksOf(parts)| :: StartsWith(ChunksOf(parts)[k].diffText, DiffMarker)
  {
    if parts != [] {
      ChunksOfSpec(parts[..|parts| - 1]);
    }
  }

  /** A part becomes a chunk exactly when it is not blank: all blank parts give no chunks. */
  lemma {:induction false} ChunksOfBlank(parts: seq<string>)
    ensures ChunksOf(parts) == [] <==> forall k | 0 <= k < |parts| :: IsBlank(parts[k])
  {
    if parts != [] {
      var init := parts[..|parts| - 1];
      ChunksOfBlank(init);
      assert forall k | 0 <= k < |init| :: init[k] == parts[k];
    }
  }

  /** A diff with nothing but whitespace has no chunks. */
  lemma BlankDiffHasNoChunks(unifiedDiff: string)
    requires IsBlank(unifiedDiff)
    ensures DiffChunks(unifiedDiff) == []
  {
    BlankHasNoMarker(unifiedDiff, 0);
    assert unifiedDiff[0..] == unifiedDiff;
    ChunksOfBlank([unifiedDiff]);
  }

  /** `DiffParser.split`: a chunk for every part that is not blank, in order. */
  method Split(unifiedDiff: string) returns (chunks: seq<ReviewChunk>)
    ensures chunks == DiffChunks(unifiedDiff)
    ensures forall k | 0 <= k < |chunks| :: StartsWith(chunks[k].diffText, DiffMarker)
  {
    var parts := SplitParts(unifiedDiff, 0);
    chunks := [];
    for i := 0 to |parts|
      invariant chunks == ChunksOf(parts[..i])
    {
      assert parts[..i + 1][..i] == parts[..i];
      if NonBlank(parts[i]) {
        chunks := chunks + [ChunkOf(parts[i])];
      }
    }
    assert parts[..|parts|] == parts;
    ChunksOfSpec(parts);
  }

  // ---------------------------------------------------------------------------
  // review_async: selection, per-file diffs, summary and total

  /** `{chunk.file_path: chunk.diff_text for chunk in selected}`. */
  function DiffsByPath(chunks: seq<ReviewChunk>): map<string, string> {
    if chunks == [] then map[]
    else
      var last := chunks[|chunks| - 1];
      DiffsByPath(chunks[..|chunks| - 1])[last.filePath := last.diffText]
  }

  /** The index of the last chunk for `path`, or -1 when there is none. */
  function LastChunkFor(chunks: seq<ReviewChunk>, path: string): (i: int)
    ensures -1 <= i < |chunks|
    ensures i >= 0 ==> chunks[i].filePath == path
    ensures forall k | i < k < |chunks| :: chunks[k].filePath != path
  {
    if chunks == [] then -1
    else if chunks[|chunks| - 1].filePath == path then |chunks| - 1
    else LastChunkFor(chunks[..|chunks| - 1], path)
  }

  /**
    The map has a key for exactly the paths of the chunks, and a path that
    occurs more than once maps to the diff of its last chunk.
  */
  lemma {:induction false} DiffsByPathSpec(chunks: seq<ReviewChunk>, path: string)
    ensures path in DiffsByPath(chunks) <==> LastChunkFor(chunks, path) >= 0
    ensures path in DiffsByPath(chunks) ==>
              DiffsByPath(chunks)[path] == chunks[LastChunkFor(chunks, path)].diffText
  {
    if chunks != [] {
      var init := chunks[..|chunks| - 1];
      DiffsByPathSpec(init, path);
      if chunks[|chunks| - 1].filePath != path && LastChunkFor(init, path) >= 0 {
        assert chunks[LastChunkFor(init, path)] == init[LastChunkFor(init, path)];
      }
    }
  }

  /** The summary's three severity counts, over the findings of all files. */
  function BlockerCount(reviews: seq<FileReview>): nat {
    CountSeverity(AllFindings(reviews), "BLOCKER")
  }

  function WarningCount(reviews: seq<FileReview>): nat {
    CountSeverity(AllFindings(reviews), "WARNING")
  }

  function NitCount(reviews: seq<FileReview>): nat {
    CountSeverity(AllFindings(reviews), "NIT")
  }

  /** `_build_summary`: the number of files, then the blocker, warning and nit counts. */
  function BuildSummary(reviews: seq<FileReview>): string {
    "Reviewed " + IntToStr(|reviews|) + " file(s). Found " + IntToStr(BlockerCount(reviews))
    + " blocker(s), " + IntToStr(WarningCount(reviews)) + " warning(s), "
    + IntToStr(NitCount(reviews)) + " nit(s)."
  }

  /**
    `_count_findings`, and the summary's counts: with validated findings the
    three counts add up to the total.
  */
  lemma SummaryCountsAddUp(reviews: seq<FileReview>)
    requires ValidFindings(AllFindings(reviews))
    ensures BlockerCount(reviews) + WarningCount(reviews) + NitCount(reviews) == TotalFindings(reviews)
  {
    SeverityCountsPartition(AllFindings(reviews));
    TotalIsAllFindings(reviews);
  }

  /** The summary returned for a diff without chunks. */
  const NoDiffSummary: string := "No diff to review."

  /**
    The result of `review_async` for the chunks of a diff: nothing to review
    without chunks; otherwise the first `maxFiles` chunks are reviewed, in
    order, and the total counts their findings.
  */
  function ReviewOutcome(chunks: seq<ReviewChunk>, maxFiles: int, reviewFile: ReviewChunk -> FileReview): (r: ReviewResult)
    ensures chunks == [] ==> r == ReviewResult(NoDiffSummary, [], 0, map[])
    ensures chunks != [] ==> r.summary == BuildSummary(r.files)
    ensures chunks != [] ==> |r.files| == |PyTake(chunks, maxFiles)|
                             && forall k | 0 <= k < |r.files| :: r.files[k] == reviewFile(chunks[k])
    ensures chunks != [] ==> r.perFileDiffs == DiffsByPath(PyTake(chunks, maxFiles))
    ensures r.findingsTotal == TotalFindings(r.files)
  {
    if chunks == [] then ReviewResult(NoDiffSummary, [], 0, map[])
    else
      var selected := PyTake(chunks, maxFiles);
      var reviews := MapSeq(selected, reviewFile);
      forall k | 0 <= k < |reviews| ensures reviews[k] == reviewFile(chunks[k]) {
        MapSeqAt(selected, reviewFile, k);
      }
      TotalIsAllFindings(reviews);
      NewReviewResult(BuildSummary(reviews), reviews, TotalFindings(reviews), DiffsByPath(selected))
  }

  /** `review_async` up to the per-file reviews: split, then review the selected chunks. */
  method Review(unifiedDiff: string, maxFiles: int, reviewFile: ReviewChunk -> FileReview) returns (r: ReviewResult)
    ensures r == ReviewOutcome(DiffChunks(unifiedDiff), maxFiles, reviewFile)
    ensures IsBlank(unifiedDiff) ==> r == ReviewResult(NoDiffSummary, [], 0, map[])
    ensures 0 <= maxFiles ==> |r.files| <= maxFiles
  {
    var chunks := Split(unifiedDiff);
    if IsBlank(unifiedDiff) {
      BlankDiffHasNoChunks(unifiedDiff);
    }
    r := ReviewOutcome(chunks, maxFiles, reviewFile);
  }
}
