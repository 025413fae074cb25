/**
  The pydantic models of `src/review_models.py`: a finding, the review of one
  file and the result of a whole review, with the three validators that run
  when they are built. A model that fails validation is an `Err` (pydantic
  raises `ValueError`).
*/
module ReviewModels {
  import opened Maybe
  import opened PyText

  // ---------------------------------------------------------------------------
  // The models

  /** The three severities a finding may carry. */
  predicate IsSeverity(token: string) {
    token == "BLOCKER" || token == "WARNING" || token == "NIT"
  }

  /** A value given for `lines` before validation: text, or a number such as `10`. */
  datatype LinesValue = LinesText(text: string) | LinesNumber(number: int)

  /** `FindingModel` after validation. */
  datatype Finding = Finding(
    severity: string,
    title: string,
    lines: Option<string>,
    anchor: Option<string>,
    rationale: Option<string>,
    recommendation: Option<string>,
    patch: Option<string>)

  /** `FileReviewModel`: the summary defaults to empty and the findings to none. */
  datatype FileReview = FileReview(file: string, summary: string := "", findings: seq<Finding> := [])

  /** `ReviewResultModel`. */
  datatype ReviewResult = ReviewResult(
    summary: string,
    files: seq<FileReview>,
    findingsTotal: int,
    perFileDiffs: map<string, string>)

  /** Every finding carries one of the three severities, as validation guarantees. */
  predicate ValidFindings(findings: seq<Finding>) {
    forall k | 0 <= k < |findings| :: IsSeverity(findings[k].severity)
  }

  // ---------------------------------------------------------------------------
  // Validators

  /**
    `normalize_severity`: the stripped, upper-cased token when it is one of
    the three severities; a missing or blank value is rejected.
  */
  function NormalizeSeverity(value: Option<string>): (r: Result<string>)
    ensures r.Ok? ==> IsSeverity(r.value)
    ensures value.Some? ==> (r.Ok? <==> IsSeverity(Upper(Strip(value.value))))
    ensures r.Ok? ==> value.Some? && r.value == Upper(Strip(value.value))
    ensures value.None? ==> r.Err?
    ensures value.Some? && IsBlank(value.value) ==> r.Err?
  {
    var token := Upper(Strip(value.GetOr("")));
    assert |token| == 0 ==> !IsSeverity(token);
    if IsSeverity(token) then Ok(token) else Err("severity must be BLOCKER, WARNING, or NIT")
  }

  /** A severity already in normal form is accepted unchanged. */
  lemma NormalizeAccepts(token: string)
    requires IsSeverity(token)
    ensures NormalizeSeverity(Some(token)) == Ok(token)
  {
    StripFixed(token);
    UpperFixed(token);
  }

  /**
    Any spelling of a severity, in any letter case and padded with
    whitespace, normalises to that severity.
  */
  lemma NormalizeAnySpelling(token: string, pre: string, body: string, post: string)
    requires IsSeverity(token)
    requires IsBlank(pre) && IsBlank(post)
    requires Upper(body) == token
    ensures NormalizeSeverity(Some(pre + body + post)) == Ok(token)
  {
    assert UpperChar(body[0]) == token[0] && UpperChar(body[|body| - 1]) == token[|token| - 1];
    StripPadded(pre, body, post);
  }

  /** A token outside the three severities, such as `CRITICAL`, is rejected. */
  lemma NormalizeRejectsCritical(value: string)
    requires value == "CRITICAL"
    ensures NormalizeSeverity(Some(value)).Err?
  {
    StripFixed(value);
    UpperFixed(value);
  }

  /** Normalising a normalised severity changes nothing. */
  lemma NormalizeIdempotent(value: Option<string>)
    requires NormalizeSeverity(value).Ok?
    ensures NormalizeSeverity(Some(NormalizeSeverity(value).value)) == NormalizeSeverity(value)
  {
    NormalizeAccepts(NormalizeSeverity(value).value);
  }

  /** `coerce_lines`: `None` stays `None`; anything else becomes its `str`. */
  function CoerceLines(value: Option<LinesValue>): (r: Option<string>)
    ensures r.None? <==> value.None?
    ensures value.Some? && value.value.LinesText? ==> r == Some(value.value.text)
    ensures value.Some? && value.value.LinesNumber? ==> r == Some(IntToStr(value.value.number)) && r.value != []
  {
    match value
    case None => None
    case Some(LinesText(text)) => Some(text)
    case Some(LinesNumber(n)) => Some(IntToStr(n))
  }

  /** Coercing an already coerced value again changes nothing. */
  lemma CoerceLinesIdempotent(value: Option<LinesValue>)
    requires value.Some?
    ensures CoerceLines(Some(LinesText(CoerceLines(value).value))) == CoerceLines(value)
  {
  }

  /** `FindingModel(...)`: validation succeeds exactly when the severity does. */
  function NewFinding(
    severity: Option<string>,
    title: string,
    lines: Option<LinesValue>,
    anchor: Option<string>,
    rationale: Option<string>,
    recommendation: Option<string>,
    patch: Option<string>): (r: Result<Finding>)
    ensures r.Ok? <==> NormalizeSeverity(severity).Ok?
    ensures r.Ok? ==> IsSeverity(r.value.severity) && r.value.title == title
    ensures r.Ok? ==> (r.value.lines.Some? <==> lines.Some?)
    ensures r.Ok? ==> r.value == Finding(NormalizeSeverity(severity).value, title, CoerceLines(lines),
                                         anchor, rationale, recommendation, patch)
  {
    match NormalizeSeverity(severity)
    case Err(message) => Err(message)
    case Ok(token) => Ok(Finding(token, title, CoerceLines(lines), anchor, rationale, recommendation, patch))
  }

  // ---------------------------------------------------------------------------
  // Totals

  /** `sum(len(f.findings) for f in files)`. */
  function TotalFindings(files: seq<FileReview>): nat {
    if files == [] then 0 else TotalFindings(files[..|files| - 1]) + |files[|files| - 1].findings|
  }

  /** The findings of all files, file after file. */
  function AllFindings(files: seq<FileReview>): seq<Finding> {
    if files == [] then [] else AllFindings(files[..|files| - 1]) + files[|files| - 1].findings
  }

  /** The total is the number of findings over all files. */
  lemma {:induction false} TotalIsAllFindings(files: seq<FileReview>)
    ensures TotalFindings(files) == |AllFindings(files)|
  {
    if files != [] {
      TotalIsAllFindings(files[..|files| - 1]);
    }
  }

  /** The total adds up over concatenated file lists. */
  lemma {:induction false} TotalFindingsAppend(files: seq<FileReview>, more: seq<FileReview>)
    ensures TotalFindings(files + more) == TotalFindings(files) + TotalFindings(more)
  {
    if more == [] {
      assert files + more == files;
    } else {
      var init := more[..|more| - 1];
      var last := more[|more| - 1];
      TotalFindingsAppend(files, init);
      assert (files + more)[..|files + more| - 1] == files + init;
      assert (files + more)[|files + more| - 1] == last;
      assert TotalFindings(files + more) == TotalFindings(files + init) + |last.findings|;
    }
  }

  /** The findings of concatenated file lists are concatenated. */
  lemma {:induction false} AllFindingsAppend(files: seq<FileReview>, more: seq<FileReview>)
    ensures AllFindings(files + more) == AllFindings(files) + AllFindings(more)
  {
    if more == [] {
      assert files + more == files;
    } else {
      var init := more[..|more| - 1];
      var last := more[|more| - 1];
      AllFindingsAppend(files, init);
      assert (files + more)[..|files + more| - 1] == files + init;
      assert (files + more)[|files + more| - 1] == last;
      assert AllFindings(files + more) == AllFindings(files + init) + last.findings;
      assert AllFindings(more) == AllFindings(init) + last.findings;
    }
  }

  /** No file has a finding exactly when the total is zero. */
  lemma {:induction false} TotalFindingsZero(files: seq<FileReview>)
    ensures TotalFindings(files) == 0 <==> forall k | 0 <= k < |files| :: files[k].findings == []
  {
    if files != [] {
      var init := files[..|files| - 1];
      TotalFindingsZero(init);
      assert forall k | 0 <= k < |init| :: init[k] == files[k];
    }
  }

  /**
    `ensure_consistent_total`: whatever total was passed, the result is the
    number of findings in `files`.
  */
  function EnsureConsistentTotal(value: int, files: seq<FileReview>): (r: int)
    ensures r == |AllFindings(files)|
    ensures r == 0 <==> forall k | 0 <= k < |files| :: files[k].findings == []
  {
    var actual := TotalFindings(files);
    TotalIsAllFindings(files);
    TotalFindingsZero(files);
    if value != actual then actual else value
  }

  /** `ReviewResultModel(...)`: the files, diffs and summary are kept; the total is recomputed. */
  function NewReviewResult(
    summary: string,
    files: seq<FileReview>,
    findingsTotal: int,
    perFileDiffs: map<string, string>): (r: ReviewResult)
    ensures r.summary == summary && r.files == files && r.perFileDiffs == perFileDiffs
    ensures r.findingsTotal == |AllFindings(files)|
  {
    ReviewResult(summary, files, EnsureConsistentTotal(findingsTotal, files), perFileDiffs)
  }

  // ---------------------------------------------------------------------------
  // Severity counts

  /** The number of findings whose severity is exactly `level`. */
  function CountSeverity(findings: seq<Finding>, level: string): (n: nat)
    ensures n <= |findings|
  {
    if findings == [] then 0
    else CountSeverity(findings[..|findings| - 1], level) + (if findings[|findings| - 1].severity == level then 1 else 0)
  }

  /** With valid severities, the blocker, warning and nit counts add up to all findings. */
  lemma {:induction false} SeverityCountsPartition(findings: seq<Finding>)
    requires ValidFindings(findings)
    ensures CountSeverity(findings, "BLOCKER") + CountSeverity(findings, "WARNING")
            + CountSeverity(findings, "NIT") == |findings|
  {
    if findings != [] {
      var init := findings[..|findings| - 1];
      assert ValidFindings(init) by {
        assert forall k | 0 <= k < |init| :: init[k] == findings[k];
      }
      SeverityCountsPartition(init);
      assert IsSeverity(findings[|findings| - 1].severity);
    }
  }
}
