/**
  `render_markdown_comment` of `src/utils.py`: the pull-request comment built
  from a review result. A header with the summary and the severity counts,
  an index of the files with findings, one section per such file, and a
  closing line when there is nothing to report; the whole text is stripped
  and cut to 18000 characters.

  The result is the one `review_models` validates, so every key the renderer
  reads is present; a rationale or recommendation may be `None`, and the
  renderer calls `.strip()` on it, which raises `AttributeError`: that case
  is an `Err`.
*/
module Markdown {
  import opened Maybe
  import opened PyText
  import opened ReviewModels

  const MaxCommentChars: int := 18000
  const FileSummaryChars: int := 300
  const DetailChars: int := 800

  // ---------------------------------------------------------------------------
  // _truncate

  const Ellipsis: string := "\U{2026}"

  /** `_truncate(s, n)`: `s` when it fits, else its first `n - 1` characters and an ellipsis. */
  function Truncate(s: string, n: int): (r: string)
    ensures |s| <= n ==> r == s
    ensures 1 <= n < |s| ==> |r| == n && r[..n - 1] == s[..n - 1] && r[n - 1..] == Ellipsis
    ensures 1 <= n ==> |r| <= n
  {
    if |s| <= n then s else PyTake(s, n - 1) + Ellipsis
  }

  /** Truncating a truncated text again changes nothing. */
  lemma TruncateIdempotent(s: string, n: int)
    requires 1 <= n
    ensures Truncate(Truncate(s, n), n) == Truncate(s, n)
  {
  }

  // ---------------------------------------------------------------------------
  // _safe_code

  /** Three backticks in a row start at `i`: a Markdown code fence. */
  predicate FenceAt(s: string, i: int) {
    0 <= i && i + 3 <= |s| && s[i] == '`' && s[i + 1] == '`' && s[i + 2] == '`'
  }

  predicate HasFence(s: string) {
    exists i | 0 <= i < |s| :: FenceAt(s, i)
  }

  /** `s.replace("```", "`` `")`, scanning left to right without overlap. */
  function ReplaceFences(s: string): string
    decreases |s|
  {
    if s == [] then []
    else if |s| >= 3 && s[0] == '`' && s[1] == '`' && s[2] == '`' then "`` `" + ReplaceFences(s[3..])
    else [s[0]] + ReplaceFences(s[1..])
  }

  /** Text without three backticks in a row comes back unchanged. */
  lemma {:induction false} ReplaceFencesKeepsFenceless(s: string)
    ensures !HasFence(s) ==> ReplaceFences(s) == s
    decreases |s|
  {
    if s != [] && !HasFence(s) {
      assert !FenceAt(s, 0);
      assert !HasFence(s[1..]) by {
        forall i | 0 <= i < |s[1..]| ensures !FenceAt(s[1..], i) {
          assert !FenceAt(s, i + 1);
        }
      }
      ReplaceFencesKeepsFenceless(s[1..]);
    }
  }

  /** The first character survives the replacement. */
  lemma ReplaceFencesHead(s: string)
    requires s != []
    ensures ReplaceFences(s) != [] && ReplaceFences(s)[0] == s[0]
  {
  }

  /** Output that starts with two backticks comes from input that does. */
  lemma ReplaceFencesTwoTicks(s: string)
    requires |ReplaceFences(s)| >= 2 && ReplaceFences(s)[0] == '`' && ReplaceFences(s)[1] == '`'
    ensures |s| >= 2 && s[0] == '`' && s[1] == '`'
  {
    ReplaceFencesHead(s);
    if !(|s| >= 3 && s[0] == '`' && s[1] == '`' && s[2] == '`') {
      assert ReplaceFences(s) == [s[0]] + ReplaceFences(s[1..]);
      ReplaceFencesHead(s[1..]);
    }
  }

  /**
    Three backticks can survive the replacement, but only right after the
    `` `` `` of a replaced run: every fence in the output follows two
    backticks and a space.
  */
  lemma {:induction false} FenceFollowsBreak(s: string)
    ensures forall p | FenceAt(ReplaceFences(s), p) ::
              p >= 3 && ReplaceFences(s)[p - 3] == '`' && ReplaceFences(s)[p - 2] == '`' && ReplaceFences(s)[p - 1] == ' '
    decreases |s|
  {
    var r := ReplaceFences(s);
    if s == [] {
    } else if |s| >= 3 && s[0] == '`' && s[1] == '`' && s[2] == '`' {
      var rest := ReplaceFences(s[3..]);
      FenceFollowsBreak(s[3..]);
      assert r == "`` `" + rest;
      forall p | FenceAt(r, p) ensures p >= 3 && r[p - 3] == '`' && r[p - 2] == '`' && r[p - 1] == ' ' {
        if p >= 4 {
          assert FenceAt(rest, p - 4);
        }
      }
    } else {
      var rest := ReplaceFences(s[1..]);
      FenceFollowsBreak(s[1..]);
      assert r == [s[0]] + rest;
      forall p | FenceAt(r, p) ensures p >= 3 && r[p - 3] == '`' && r[p - 2] == '`' && r[p - 1] == ' ' {
        if p == 0 {
          ReplaceFencesTwoTicks(s[1..]);
          assert false;
        } else {
          assert FenceAt(rest, p - 1);
        }
      }
    }
  }

  /** Position `i` starts a line: the start of the text or just after a line ending. */
  predicate LineStartAt(s: string, i: int) {
    0 <= i <= |s| && (i == 0 || s[i - 1] == '\n' || s[i - 1] == '\r')
  }

  /** `k` spaces of indentation from `i`, then three backticks. */
  predicate IndentedFence(s: string, i: int, k: int) {
    0 <= i && 0 <= k && i + k <= |s| && (forall j | i <= j < i + k :: s[j] == ' ') && FenceAt(s, i + k)
  }

  /**
    A line starting at `i` could close the patch's code block: at most three
    spaces and then three backticks (section 4.5 of the CommonMark
    specification).
  */
  predicate ClosingFenceAt(s: string, i: int) {
    LineStartAt(s, i) && exists k | 0 <= k <= 3 :: IndentedFence(s, i, k)
  }

  /** After the replacement no line can close the code block the patch sits in. */
  lemma ReplaceFencesClosesNothing(s: string)
    ensures forall i | 0 <= i <= |ReplaceFences(s)| :: !ClosingFenceAt(ReplaceFences(s), i)
  {
    var r := ReplaceFences(s);
    FenceFollowsBreak(s);
    forall i, k | 0 <= i <= |r| && 0 <= k <= 3 ensures LineStartAt(r, i) ==> !IndentedFence(r, i, k) {
      if k >= 2 && FenceAt(r, i + k) {
        assert r[i + k - 2] != ' ';
      }
    }
  }

  /**
    `_safe_code`: empty for `None` or `""`, else every run of three backticks
    replaced by `` `` ` `` in one left-to-right pass. Text without such a run
    is kept, and no line of the result can close the surrounding code block.
  */
  function SafeCode(s: Option<string>): (r: string)
    ensures r == [] <==> s.None? || s.value == []
    ensures s.Some? && !HasFence(s.value) ==> r == s.value
    ensures forall i | 0 <= i <= |r| :: !ClosingFenceAt(r, i)
  {
    if s.None? || s.value == [] then ""
    else
      ReplaceFencesHead(s.value);
      ReplaceFencesClosesNothing(s.value);
      ReplaceFencesKeepsFenceless(s.value);
      ReplaceFences(s.value)
  }

  /**
    Six backticks come out as `` `` ``` ` ``: three backticks remain, but in
    the middle of the line, so they do not close the block.
  */
  lemma SafeCodeSixBackticks(s: string)
    requires s == "``````"
    ensures SafeCode(Some(s)) == "`` ``` `"
    ensures FenceAt(SafeCode(Some(s)), 3) && !ClosingFenceAt(SafeCode(Some(s)), 3)
  {
    var once := "`` `";
    assert s[3..] == "```";
    assert s[3..][3..] == [];
    assert ReplaceFences(s[3..]) == once;
    assert once + once == "`` ``` `";
  }

  /** Five backticks come out as `` `` ``` ``. */
  lemma SafeCodeFiveBackticks(s: string)
    requires s == "`````"
    ensures SafeCode(Some(s)) == "`` ```"
  {
    var t := s[3..];
    assert t == "``";
    assert t[1..] == "`" && t[1..][1..] == [];
    assert ReplaceFences(t[1..]) == "`";
    assert ReplaceFences(t) == "``";
    assert "`` `" + "``" == "`` ```";
  }

  // ---------------------------------------------------------------------------
  // Severity counts and the header

  /** `_count(level)`: the findings whose upper-cased severity is `level`. */
  function CountLevel(findings: seq<Finding>, level: string): (n: nat)
    ensures n <= |findings|
  {
    if findings == [] then 0
    else CountLevel(findings[..|findings| - 1], level) + (if Upper(findings[|findings| - 1].severity) == level then 1 else 0)
  }

  /** On validated findings the case-insensitive count is the exact count the summary uses. */
  lemma {:induction false} CountLevelValid(findings: seq<Finding>, level: string)
    requires ValidFindings(findings)
    ensures CountLevel(findings, level) == CountSeverity(findings, level)
  {
    if findings != [] {
      var init := findings[..|findings| - 1];
      assert ValidFindings(init) by {
        assert forall k | 0 <= k < |init| :: init[k] == findings[k];
      }
      CountLevelValid(init, level);
      NormalizeAccepts(findings[|findings| - 1].severity);
    }
  }

  const Title: string := "### \U{1F916} MergeWise Code Review"
  const BlockerEmoji: string := "\U{1F6AB}"
  const WarningEmoji: string := "\U{26A0}\U{FE0F}"
  const NitEmoji: string := "\U{1F4A1}"
  const OtherEmoji: string := "\U{2022}"
  const Dash: string := "\U{2014}"

  /** `sev_emoji.get(sev, "•")`. */
  function SeverityEmoji(sev: string): string {
    if sev == "BLOCKER" then BlockerEmoji
    else if sev == "WARNING" then WarningEmoji
    else if sev == "NIT" then NitEmoji
    else OtherEmoji
  }

  /** The summary line with the three badges. */
  function SummaryLine(summary: string, blockers: nat, warnings: nat, nits: nat): string {
    "**Summary:** " + summary + " &nbsp;&nbsp;|&nbsp;&nbsp; **" + BlockerEmoji + " Blockers:** "
    + IntToStr(blockers) + " &nbsp;&nbsp; **" + WarningEmoji + " Warnings:** " + IntToStr(warnings)
    + " &nbsp;&nbsp; **" + NitEmoji + " Nits:** " + IntToStr(nits)
  }

  /** The four header lines: title, blank, summary with counts, blank. */
  function HeaderLines(result: ReviewResult): seq<string> {
    var findings := AllFindings(result.files);
    [Title, "", SummaryLine(result.summary, CountLevel(findings, "BLOCKER"), CountLevel(findings, "WARNING"),
                            CountLevel(findings, "NIT")), ""]
  }

  // ---------------------------------------------------------------------------
  // The index of files with issues

  /** `[f for f in files if f.get("findings")]`. */
  function FilesWithIssues(files: seq<FileReview>): seq<FileReview> {
    if files == [] then []
    else
      var last := files[|files| - 1];
      FilesWithIssues(files[..|files| - 1]) + (if last.findings != [] then [last] else [])
  }

  /**
    The files with issues are exactly the files with findings, and together
    they hold every finding.
  */
  lemma {:induction false} FilesWithIssuesSpec(files: seq<FileReview>)
    ensures forall f :: f in FilesWithIssues(files) <==> f in files && f.findings != []
    ensures AllFindings(FilesWithIssues(files)) == AllFindings(files)
    ensures FilesWithIssues(files) == [] <==> forall k | 0 <= k < |files| :: files[k].findings == []
  {
    if files != [] {
      var init := files[..|files| - 1];
      var last := files[|files| - 1];
      FilesWithIssuesSpec(init);
      assert files == init + [last];
      AllFindingsAppend(FilesWithIssues(init), if last.findings != [] then [last] else []);
      AllFindingsAppend(init, [last]);
      assert AllFindings([last]) == last.findings by {
        assert [last][..0] == [];
      }
      if last.findings == [] {
        assert AllFindings([]) == [];
      }
    }
  }

  const IndexOpen: string := "<details><summary><strong>Files with issues</strong></summary>"
  const IndexClose: string := "</details>"

  /** ``- `file` — n finding(s)``. */
  function IndexLine(f: FileReview): string {
    "- `" + f.file + "` " + Dash + " " + IntToStr(|f.findings|) + " finding(s)"
  }

  /** The index entry of one file. */
  function IndexEntry(f: FileReview): seq<string> {
    [IndexLine(f)]
  }

  /** One index line per file, in order. */
  function IndexLines(files: seq<FileReview>): seq<string> {
    FlatMap(files, IndexEntry)
  }

  lemma {:induction false} IndexLinesAt(files: seq<FileReview>, k: int)
    requires 0 <= k <= |files|
    ensures |IndexLines(files)| == |files|
    ensures k < |files| ==> IndexLines(files)[k] == IndexLine(files[k])
  {
    if files != [] {
      var init := files[..|files| - 1];
      IndexLinesAt(init, if k < |init| then k else 0);
      assert IndexLines(files) == IndexLines(init) + [IndexLine(files[|files| - 1])];
    }
  }

  /** The collapsible index, present only when some file has findings. */
  function IndexSection(files: seq<FileReview>): seq<string> {
    if files == [] then [] else [IndexOpen] + IndexLines(files) + [IndexClose, ""]
  }

  // ---------------------------------------------------------------------------
  // Per-file sections

  /** Rendering this finding raises: its rationale or recommendation is `None`. */
  predicate StripsNone(x: Finding) {
    x.rationale.None? || x.recommendation.None?
  }

  /** Some finding of `findings` makes rendering raise. */
  predicate AnyStripsNone(findings: seq<Finding>) {
    findings != [] && (AnyStripsNone(findings[..|findings| - 1]) || StripsNone(findings[|findings| - 1]))
  }

  /** Extending a prefix by one finding. */
  lemma AnyStripsNoneStep(findings: seq<Finding>, i: int)
    requires 0 <= i < |findings|
    ensures AnyStripsNone(findings[..i + 1]) <==> AnyStripsNone(findings[..i]) || StripsNone(findings[i])
  {
    assert findings[..i + 1][..i] == findings[..i];
  }

  /** A finding that raises makes every list holding it raise. */
  lemma {:induction false} AnyStripsNoneAt(findings: seq<Finding>, i: int)
    requires 0 <= i < |findings| && StripsNone(findings[i])
    ensures AnyStripsNone(findings)
  {
    var init := findings[..|findings| - 1];
    if i < |init| {
      assert init[i] == findings[i];
      AnyStripsNoneAt(init, i);
    }
  }

  /** Only a finding that raises makes the list raise. */
  lemma {:induction false} AnyStripsNoneWitness(findings: seq<Finding>) returns (i: int)
    requires AnyStripsNone(findings)
    ensures 0 <= i < |findings| && StripsNone(findings[i])
  {
    var init := findings[..|findings| - 1];
    if AnyStripsNone(init) {
      i := AnyStripsNoneWitness(init);
      assert init[i] == findings[i];
    } else {
      i := |findings| - 1;
    }
  }

  /** Concatenated findings raise exactly when either part does. */
  lemma AnyStripsNoneAppend(a: seq<Finding>, b: seq<Finding>)
    ensures AnyStripsNone(a + b) <==> AnyStripsNone(a) || AnyStripsNone(b)
  {
    if AnyStripsNone(a + b) {
      var i := AnyStripsNoneWitness(a + b);
      if i < |a| {
        AnyStripsNoneAt(a, i);
      } else {
        AnyStripsNoneAt(b, i - |a|);
      }
    }
    if AnyStripsNone(a) {
      var i := AnyStripsNoneWitness(a);
      AnyStripsNoneAt(a + b, i);
    }
    if AnyStripsNone(b) {
      var i := AnyStripsNoneWitness(b);
      AnyStripsNoneAt(a + b, |a| + i);
    }
  }

  /** The list raises exactly when one of its findings does. */
  lemma AnyStripsNoneSpec(findings: seq<Finding>)
    ensures AnyStripsNone(findings) <==> exists k | 0 <= k < |findings| :: StripsNone(findings[k])
  {
    if AnyStripsNone(findings) {
      var i := AnyStripsNoneWitness(findings);
    }
    if exists k | 0 <= k < |findings| :: StripsNone(findings[k]) {
      var k :| 0 <= k < |findings| && StripsNone(findings[k]);
      AnyStripsNoneAt(findings, k);
    }
  }

  const PatchOpen: string := "  <details><summary>Suggested patch</summary>\n\n```diff"
  const PatchClose: string := "```\n</details>"

  /** The finding's line: emoji, severity, title and line range. */
  function FindingHeadline(x: Finding): string {
    var sev := Upper(x.severity);
    var title := if Strip(x.title) == [] then "(no title)" else Strip(x.title);
    var range := if x.lines.None? || x.lines.value == [] then Dash else x.lines.value;
    "- " + SeverityEmoji(sev) + " **" + sev + "** " + Dash + " **" + title + "** _(lines " + range + ")_"
  }

  /** The lines of one finding; the why, fix and patch lines only when there is text for them. */
  function FindingLines(x: Finding): seq<string> {
    var why := Truncate(Strip(x.rationale.GetOr("")), DetailChars);
    var fix := Truncate(Strip(x.recommendation.GetOr("")), DetailChars);
    var patch := SafeCode(x.patch);
    [FindingHeadline(x)]
    + (if why != [] then ["  - **Why:** " + why] else [])
    + (if fix != [] then ["  - **Fix:** " + fix] else [])
    + (if patch != [] then [PatchOpen, patch, PatchClose] else [])
  }

  function FindingsLines(findings: seq<Finding>): seq<string> {
    FlatMap(findings, FindingLines)
  }

  /** The section of one file: its name, its summary when non-empty, its findings, a blank line. */
  function FileHeading(f: FileReview): string {
    "#### `" + f.file + "`"
  }

  function FileSummary(f: FileReview): string {
    Truncate(Strip(f.summary), FileSummaryChars)
  }

  function FileSectionLines(f: FileReview): seq<string> {
    var summary := FileSummary(f);
    [FileHeading(f)]
    + (if summary != [] then ["_Summary:_ " + summary] else [])
    + FindingsLines(f.findings)
    + [""]
  }

  function SectionsLines(files: seq<FileReview>): seq<string> {
    FlatMap(files, FileSectionLines)
  }

  // ---------------------------------------------------------------------------
  // The comment

  const NoIssuesLine: string := "_No issues found. Nice work!_ \U{1F389}"

  /** Every line of the comment, in order. */
  function CommentLines(result: ReviewResult): seq<string> {
    var issues := FilesWithIssues(result.files);
    HeaderLines(result) + IndexSection(issues) + SectionsLines(issues)
    + (if issues == [] then [NoIssuesLine] else [])
  }

  /** Lines joined into the comment text, stripped and cut to the length limit. */
  function Finish(lines: seq<string>): (text: string)
    ensures |text| <= MaxCommentChars
    ensures |Strip(Join(lines, "\n"))| <= MaxCommentChars ==> text == Strip(Join(lines, "\n"))
  {
    PyTake(Strip(Join(lines, "\n")), MaxCommentChars)
  }

  /** The comment of a review result. */
  function Markdown(result: ReviewResult): string {
    Finish(CommentLines(result))
  }

  /** Rendering raises exactly when some finding lacks its rationale or recommendation. */
  predicate RenderRaises(result: ReviewResult) {
    AnyStripsNone(AllFindings(result.files))
  }

  /**
    Without findings the comment is the header and the closing line: nothing
    is lost to stripping, and when it fits it ends with that line.
  */
  lemma NoIssuesComment(result: ReviewResult)
    requires forall k | 0 <= k < |result.files| :: result.files[k].findings == []
    ensures !RenderRaises(result)
    ensures CommentLines(result) == HeaderLines(result) + [NoIssuesLine]
    ensures |Join(CommentLines(result), "\n")| <= MaxCommentChars ==>
              Markdown(result) == Join(CommentLines(result), "\n") && EndsWith(Markdown(result), NoIssuesLine)
  {
    FilesWithIssuesSpec(result.files);
    assert AllFindings(result.files) == [];
    var lines := CommentLines(result);
    assert lines == HeaderLines(result) + [NoIssuesLine];
    var text := Join(lines, "\n");
    JoinEnds(lines, "\n");
    assert text[0] == Title[0] by {
      assert text[..|Title|] == Title;
    }
    assert text[|text| - 1] == NoIssuesLine[|NoIssuesLine| - 1] by {
      assert text[|text| - |NoIssuesLine|..] == NoIssuesLine;
    }
    StripFixed(text);
  }

  /**
    With findings, the index follows the header: one line per file with
    findings, in order, naming the file and its number of findings.
  */
  lemma IssuesIndex(result: ReviewResult)
    requires exists k | 0 <= k < |result.files| :: result.files[k].findings != []
    ensures var issues := FilesWithIssues(result.files);
            && |issues| >= 1
            && |CommentLines(result)| >= 6 + |issues|
            && CommentLines(result)[4] == IndexOpen
            && (forall k | 0 <= k < |issues| :: CommentLines(result)[5 + k] == IndexLine(issues[k]))
            && CommentLines(result)[5 + |issues|] == IndexClose
  {
    var issues := FilesWithIssues(result.files);
    FilesWithIssuesSpec(result.files);
    IndexLinesAt(issues, 0);
    var index := IndexLines(issues);
    var lines := CommentLines(result);
    assert lines == HeaderLines(result) + ([IndexOpen] + index + [IndexClose, ""]) + SectionsLines(issues);
    IndexLayout(HeaderLines(result), index, SectionsLines(issues));
    forall k | 0 <= k < |issues| ensures lines[5 + k] == IndexLine(issues[k]) {
      IndexLinesAt(issues, k);
    }
  }

  /** Where the index lines sit after a four-line header. */
  lemma IndexLayout(head: seq<string>, index: seq<string>, rest: seq<string>)
    requires |head| == 4
    ensures var lines := head + ([IndexOpen] + index + [IndexClose, ""]) + rest;
            && |lines| >= 6 + |index|
            && lines[4] == IndexOpen
            && (forall k | 0 <= k < |index| :: lines[5 + k] == index[k])
            && lines[5 + |index|] == IndexClose
  {
  }

  // ---------------------------------------------------------------------------
  // render_markdown_comment

  const NoneStripError: string := "AttributeError"

  /** One file's section: heading, summary, findings and a blank line; `Err` when a finding's text is `None`. */
  method RenderFileSection(f: FileReview) returns (r: Result<seq<string>>)
    ensures r.Err? <==> AnyStripsNone(f.findings)
    ensures r.Ok? ==> r.value == FileSectionLines(f)
  {
    var summary := FileSummary(f);
    var head := [FileHeading(f)];
    if summary != [] {
      head := head + ["_Summary:_ " + summary];
    }
    var body := RenderFindings(f.findings);
    if body.Err? {
      return Err(NoneStripError);
    }
    assert head == [FileHeading(f)] + (if summary != [] then ["_Summary:_ " + summary] else []);
    r := Ok(head + body.value + [""]);
  }

  /** The lines of the findings, one finding at a time; `Err` as soon as one raises. */
  method RenderFindings(findings: seq<Finding>) returns (r: Result<seq<string>>)
    ensures r.Err? <==> AnyStripsNone(findings)
    ensures r.Ok? ==> r.value == FindingsLines(findings)
  {
    var lines := [];
    for i := 0 to |findings|
      invariant lines == FlatMap(findings[..i], FindingLines)
      invariant !AnyStripsNone(findings[..i])
    {
      var next := RenderFinding(findings[i]);
      if next.Err? {
        AnyStripsNoneAt(findings, i);
        return Err(NoneStripError);
      }
      AnyStripsNoneStep(findings, i);
      FlatMapStep(findings, FindingLines, i);
      lines := lines + next.value;
    }
    assert findings[..|findings|] == findings;
    r := Ok(lines);
  }

  /** The lines of one finding; `Err` where stripping its rationale or recommendation raises. */
  method RenderFinding(x: Finding) returns (r: Result<seq<string>>)
    ensures r.Err? <==> StripsNone(x)
    ensures r.Ok? ==> r.value == FindingLines(x)
  {
    if StripsNone(x) {
      return Err(NoneStripError);
    }
    r := Ok(FindingLines(x));
  }

  /**
    `render_markdown_comment`: the comment for `result`, at most 18000
    characters long, or `Err` when a finding has no rationale or recommendation.
  */
  method RenderMarkdownComment(result: ReviewResult) returns (r: Result<string>)
    ensures r.Err? <==> RenderRaises(result)
    ensures r.Ok? ==> r.value == Markdown(result) && |r.value| <= MaxCommentChars
  {
    var lines := HeaderLines(result);
    var issues := FilesWithIssues(result.files);
    var index := RenderIndex(issues);
    lines := lines + index;
    assert lines == HeaderLines(result) + IndexSection(issues);
    var sections := RenderSections(issues);
    IssuesKeepFindings(result.files);
    if sections.Err? {
      return Err(NoneStripError);
    }
    lines := lines + sections.value;
    if issues == [] {
      lines := lines + [NoIssuesLine];
    }
    assert lines == CommentLines(result);
    r := Ok(Finish(lines));
  }

  /** The sections of the files with findings, one file at a time; `Err` as soon as one raises. */
  method RenderSections(issues: seq<FileReview>) returns (r: Result<seq<string>>)
    ensures r.Err? <==> AnyStripsNone(AllFindings(issues))
    ensures r.Ok? ==> r.value == SectionsLines(issues)
  {
    var lines := [];
    for i := 0 to |issues|
      invariant lines == FlatMap(issues[..i], FileSectionLines)
      invariant !AnyStripsNone(AllFindings(issues[..i]))
    {
      var section := RenderFileSection(issues[i]);
      if section.Err? {
        RaisesAt(issues, i);
        return Err(NoneStripError);
      }
      FindingsPrefix(issues, i);
      AnyStripsNoneAppend(AllFindings(issues[..i]), issues[i].findings);
      FlatMapStep(issues, FileSectionLines, i);
      lines := lines + section.value;
    }
    assert issues[..|issues|] == issues;
    r := Ok(lines);
  }

  /** Leaving out the files without findings leaves out no finding. */
  lemma IssuesKeepFindings(files: seq<FileReview>)
    ensures AllFindings(FilesWithIssues(files)) == AllFindings(files)
  {
    FilesWithIssuesSpec(files);
  }

  /** The index lines, one file at a time. */
  method RenderIndex(issues: seq<FileReview>) returns (lines: seq<string>)
    ensures lines == IndexSection(issues)
  {
    lines := [];
    if issues != [] {
      lines := [IndexOpen];
      for i := 0 to |issues|
        invariant lines == [IndexOpen] + FlatMap(issues[..i], IndexEntry)
      {
        FlatMapExtend([IndexOpen], issues, IndexEntry, i);
        lines := lines + IndexEntry(issues[i]);
      }
      assert issues[..|issues|] == issues;
      lines := lines + [IndexClose, ""];
    }
  }

  /** The findings of the first `i + 1` files are those of the first `i` and then file `i`'s. */
  lemma FindingsPrefix(files: seq<FileReview>, i: int)
    requires 0 <= i < |files|
    ensures AllFindings(files[..i + 1]) == AllFindings(files[..i]) + files[i].findings
  {
    assert files[..i + 1][..i] == files[..i];
  }

  /** A file whose findings raise makes every file list holding it raise. */
  lemma RaisesAt(files: seq<FileReview>, i: int)
    requires 0 <= i < |files| && AnyStripsNone(files[i].findings)
    ensures AnyStripsNone(AllFindings(files))
  {
    FindingsPrefix(files, i);
    AnyStripsNoneAppend(AllFindings(files[..i]), files[i].findings);
    AllFindingsAppend(files[..i + 1], files[i + 1..]);
    assert files == files[..i + 1] + files[i + 1..];
    AnyStripsNoneAppend(AllFindings(files[..i + 1]), AllFindings(files[i + 1..]));
  }
}
