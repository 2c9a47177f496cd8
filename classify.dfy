/** The classification adapter of agents/prod_metrics/classify_reviews.py:
    the excerpt window of `build_prompt`, the normalisation of the oracle's
    reply in `llm_classify_review`, and the per-review fallback of
    `classify_commits`. */
module ReviewClassifier {
  import opened Wrappers
  import opened Text
  import opened Constants
  import opened Store

  const CONFIDENCE_THRESHOLD: real := 0.6
  const DEFAULT_LABEL: string := REJECTED
  const DEFAULT_CATEGORY: string := "Other"
  const DEFAULT_RECURRING_ISSUE: string := "Other"
  const UNKNOWN_LABEL: string := "unknown"

  /** Membership in `VALID_LABELS`. */
  predicate IsValidLabel(l: string) {
    l == ACCEPTED || l == MODIFIED || l == REJECTED
  }

  function Max(a: int, b: int): int { if a < b then b else a }
  function Min(a: int, b: int): int { if a < b then a else b }

  // ---------------------------------------------------------------------
  // build_prompt
  // ---------------------------------------------------------------------

  /** What the classification prompt carries; its wording is left out. */
  datatype Prompt = Prompt(
    suggestion: string,
    start: int,
    end: int,
    parentExcerpt: seq<string>,
    childExcerpt: seq<string>)

  /** `lines[max(0, start - 2):min(len(lines), end + 2)]`. */
  function Excerpt(lines: seq<string>, start: int, end: int): seq<string> {
    Slice(lines, Max(0, start - 2), Min(|lines|, end + 2))
  }

  /** `build_prompt`: a missing start defaults to line 1, a missing end to the
      longer file's line count, and each file is cut with its own length. */
  function BuildPrompt(review: Review, parentCode: string, childCode: string): Prompt {
    var parentLines, childLines := SplitLines(parentCode), SplitLines(childCode);
    var total := Max(|parentLines|, |childLines|);
    var start := review.lineStart.GetOr(1);
    var end := review.lineEnd.GetOr(total);
    Prompt(review.suggestion, start, end, Excerpt(parentLines, start, end), Excerpt(childLines, start, end))
  }

  /** With no line range the window is lines 1..max(len) and each excerpt is
      its whole file. */
  lemma BuildPromptWithoutRange(review: Review, parentCode: string, childCode: string)
    requires review.lineStart.None? && review.lineEnd.None?
    ensures var p := BuildPrompt(review, parentCode, childCode);
            && p.start == 1
            && p.end == Max(|SplitLines(parentCode)|, |SplitLines(childCode)|)
            && p.parentExcerpt == SplitLines(parentCode)
            && p.childExcerpt == SplitLines(childCode)
  {
    var parentLines, childLines := SplitLines(parentCode), SplitLines(childCode);
    assert parentLines[0..|parentLines|] == parentLines;
    assert childLines[0..|childLines|] == childLines;
  }

  /** For a window whose end is not below -2, the excerpt is exactly the
      1-based lines start-1 .. end+2 that exist in the file (one line of
      context before the range, two after), in file order; and it is empty
      when that window holds no line of the file. */
  lemma ExcerptWindow(lines: seq<string>, start: int, end: int)
    requires end >= -2
    ensures var lo, hi := Min(Max(0, start - 2), |lines|), Min(|lines|, end + 2);
            && |Excerpt(lines, start, end)| == Max(0, hi - lo)
            && (forall k :: 0 <= k < |Excerpt(lines, start, end)| ==>
                  lo + k < |lines| && Excerpt(lines, start, end)[k] == lines[lo + k])
            && (Excerpt(lines, start, end) == [] <==> lo >= hi)
  {
  }

  /** Python wraps a negative slice end: a range ending at line -3 leaves
      out only the file's last line instead of giving an empty excerpt. */
  lemma ExcerptNegativeEndWraps(lines: seq<string>)
    requires |lines| >= 2
    ensures Excerpt(lines, 1, -3) == lines[..|lines| - 1]
  {
  }

  // ---------------------------------------------------------------------
  // llm_classify_review
  // ---------------------------------------------------------------------

  /** What `get_llm_completion` gives back: its stripped text, or an exception. */
  datatype Completion = Returned(raw: string) | Raised(error: string)

  /** The reply after `json.loads` and the `parsed.get(...)` reads. Every way
      that block can raise (invalid JSON, a non-object, a non-string label,
      category or issue, a confidence `float()` rejects) is `ParseFailed`; a
      field that is absent is None. */
  datatype Parsed =
    | ParseFailed(error: string)
    | Fields(labelText: Option<string>, confidence: Option<real>, rationale: Option<string>,
             category: Option<string>, recurringIssue: Option<string>)

  /** The 5-tuple `llm_classify_review` returns. */
  datatype Outcome = Outcome(
    classification: string,
    confidence: real,
    rationale: Rationale,
    category: string,
    recurringIssue: string)

  /** Python's `s or default` on strings. */
  function OrDefault(s: string, default: string): (r: string)
    ensures r == s || r == default
    ensures s != "" ==> r == s
    ensures default != "" ==> r != ""
  {
    if s == "" then default else s
  }

  /** The normalisation of `llm_classify_review` after the oracle answered. */
  function Normalise(raw: string, parsed: Parsed): (o: Outcome)
    ensures IsValidLabel(o.classification)
    ensures o.category != "" && o.recurringIssue != ""
  {
    CategoriesAreNonEmpty();
    match parsed
    case ParseFailed(e) =>
      Outcome(DEFAULT_LABEL, 0.0, ParseFailure(Prefix(raw, 200), e), DEFAULT_CATEGORY, DEFAULT_RECURRING_ISSUE)
    case Fields(l, c, why, cat, issue) =>
      var lbl := Lower(Strip(l.GetOr("")));
      var confidence := c.GetOr(0.0);
      var rationale := why.GetOr("");
      var category := Strip(cat.GetOr(""));
      var recurring := Strip(issue.GetOr(""));
      if confidence < CONFIDENCE_THRESHOLD then
        Outcome(DEFAULT_LABEL, confidence, LowConfidence(confidence, rationale),
                OrDefault(category, DEFAULT_CATEGORY), OrDefault(recurring, DEFAULT_RECURRING_ISSUE))
      else
        Outcome(if IsValidLabel(lbl) then lbl else DEFAULT_LABEL,
                confidence,
                Given(rationale),
                if category in REVIEW_CATEGORIES then category else DEFAULT_CATEGORY,
                if recurring == "" then DEFAULT_RECURRING_ISSUE else recurring)
  }

  /** `llm_classify_review`: Err when the oracle call itself raised (that
      exception leaves the function), else the normalised outcome. */
  function LlmClassifyReview(review: Review, parent: Snapshot, child: Snapshot,
                             complete: Prompt -> Completion, decode: string -> Parsed)
    : (r: Result<Outcome, string>)
    ensures r.Err? <==> complete(BuildPrompt(review, parent.codeText, child.codeText)).Raised?
    ensures r.Ok? ==> IsValidLabel(r.value.classification) && r.value.category != "" && r.value.recurringIssue != ""
  {
    match complete(BuildPrompt(review, parent.codeText, child.codeText))
    case Raised(e) => Err(e)
    case Returned(raw) => Ok(Normalise(raw, decode(raw)))
  }

  /** An unparseable reply becomes (rejected, 0.0, failure, "Other", "Other"),
      the failure quoting at most 200 characters of the reply. */
  lemma NormaliseParseFailure(raw: string, e: string)
    ensures var o := Normalise(raw, ParseFailed(e));
            && o.classification == REJECTED && o.confidence == 0.0
            && o.rationale.ParseFailure? && o.rationale.excerpt <= raw && |o.rationale.excerpt| <= 200
            && o.category == "Other" && o.recurringIssue == "Other"
  {
  }

  /** Below the 0.6 floor the label is "rejected" whatever the oracle said, the
      confidence is kept, the rationale is the low-confidence note, and the
      category and issue are the oracle's stripped text (not checked against
      the category list) or "Other" when blank. */
  lemma NormaliseLowConfidence(raw: string, p: Parsed)
    requires p.Fields? && p.confidence.GetOr(0.0) < 0.6
    ensures var o := Normalise(raw, p);
            && o.classification == REJECTED
            && o.confidence == p.confidence.GetOr(0.0)
            && o.rationale == LowConfidence(o.confidence, p.rationale.GetOr(""))
            && o.category != "" && o.recurringIssue != ""
            && (!IsBlank(p.category.GetOr("")) ==> o.category == Strip(p.category.GetOr("")))
            && (IsBlank(p.category.GetOr("")) ==> o.category == "Other")
            && (!IsBlank(p.recurringIssue.GetOr("")) ==> o.recurringIssue == Strip(p.recurringIssue.GetOr("")))
  {
  }

  /** At or above the floor the label is a valid label (the oracle's, stripped
      and lower-cased, exactly when that is valid), the category is one of
      `REVIEW_CATEGORIES`, and the issue is non-empty. */
  lemma NormaliseConfident(raw: string, p: Parsed)
    requires p.Fields? && p.confidence.GetOr(0.0) >= 0.6
    ensures var o := Normalise(raw, p);
            var lbl := Lower(Strip(p.labelText.GetOr("")));
            && IsValidLabel(o.classification)
            && (o.classification == lbl <==> IsValidLabel(lbl))
            && o.confidence == p.confidence.GetOr(0.0)
            && o.rationale == Given(p.rationale.GetOr(""))
            && o.category in REVIEW_CATEGORIES
            && (o.category == Strip(p.category.GetOr("")) <==> Strip(p.category.GetOr("")) in REVIEW_CATEGORIES)
            && o.recurringIssue != ""
  {
  }

  /** What the oracle can make `Normalise` say: any mix of upper and lower
      case and surrounding whitespace around "accepted" is read as accepted. */
  lemma NormaliseReadsAccepted(raw: string, l: string, c: real, why: string, cat: string, issue: string)
    requires c >= 0.6 && Lower(Strip(l)) == ACCEPTED
    ensures Normalise(raw, Fields(Some(l), Some(c), Some(why), Some(cat), Some(issue))).classification == ACCEPTED
  {
  }

  // ---------------------------------------------------------------------
  // One review inside classify_commits
  // ---------------------------------------------------------------------

  /** One element of `all_classifications`. */
  datatype Entry = Entry(
    reviewId: nat,
    parentCommitId: CommitId,
    childCommitId: CommitId,
    classification: string,
    confidence: real,
    rationale: Rationale,
    category: string,
    recurringIssue: string)

  /** The `try`/`except` around `llm_classify_review` and the dict built for
      the review: an exception gives "unknown" with confidence 0.0. */
  function ClassifyOne(review: Review, parent: Snapshot, child: Snapshot,
                       complete: Prompt -> Completion, decode: string -> Parsed): (e: Entry)
    ensures e.reviewId == review.reviewId
    ensures e.parentCommitId == parent.commitId && e.childCommitId == child.commitId
    ensures e.category != "" && e.recurringIssue != ""
    ensures IsValidLabel(e.classification) || e.classification == UNKNOWN_LABEL
    ensures e.classification == UNKNOWN_LABEL <==>
              complete(BuildPrompt(review, parent.codeText, child.codeText)).Raised?
    ensures e.classification == UNKNOWN_LABEL ==> e.confidence == 0.0 && e.rationale.ClassifierError?
  {
    var o := match LlmClassifyReview(review, parent, child, complete, decode)
      case Ok(o) => o
      case Err(msg) => Outcome(UNKNOWN_LABEL, 0.0, ClassifierError(msg), DEFAULT_CATEGORY, DEFAULT_RECURRING_ISSUE);
    Entry(review.reviewId, parent.commitId, child.commitId, o.classification, o.confidence, o.rationale,
          OrDefault(o.category, DEFAULT_CATEGORY), OrDefault(o.recurringIssue, DEFAULT_RECURRING_ISSUE))
  }

  /** The dict fields main.py passes to `create_classification`. */
  function ToNewClassification(e: Entry): (c: NewClassification)
    ensures c.reviewId == e.reviewId && c.classification == e.classification
    ensures c.category == e.category && c.recurringIssue == e.recurringIssue
    ensures c.confidence == e.confidence && c.rationale == e.rationale
  {
    NewClassification(e.reviewId, e.category, e.classification, e.recurringIssue, e.confidence, e.rationale)
  }
}
