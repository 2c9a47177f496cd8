/** The two endpoints of main.py: `POST /classify` stores the merged
    snapshot, classifies the reviews along its parent chain and saves one
    classification per result; `GET /generate_metrics` arranges the eight
    values of `calculate_metrics` into the response document. */
module Api {
  import opened Wrappers
  import opened Store
  import opened ReviewClassifier
  import opened CommitChain
  import opened Counter
  import opened Metrics

  // ---------------------------------------------------------------------
  // POST /classify
  // ---------------------------------------------------------------------

  /** The `SnapshotRequest` body. */
  datatype SnapshotRequest = SnapshotRequest(
    parentCommitId: string,
    projectId: string,
    developerName: string,
    codeText: string,
    language: string)

  /** The row `create_snapshot` stores for the request under the new id; an
      empty parent id is stored as NULL. */
  function NewSnapshot(id: CommitId, request: SnapshotRequest): (s: Snapshot)
    ensures s.commitId == id
    ensures Link(s).None? <==> request.parentCommitId == ""
    ensures Link(s).Some? ==> Link(s).value == request.parentCommitId
  {
    Snapshot(id, request.projectId, StoredParent(Some(request.parentCommitId)),
             request.developerName, request.codeText, request.language)
  }

  /** The snapshot table after `create_snapshot`: the new row is added and every
      chain still ends (the new id is fresh and is not its own parent). */
  function Stored(snaps: map<CommitId, Snapshot>, id: CommitId, request: SnapshotRequest)
    : (snaps': map<CommitId, Snapshot>)
    requires ChainsStop(snaps) && Unreferenced(snaps, id) && request.parentCommitId != id
    ensures ChainsStop(snaps')
    ensures Keyed(snaps) ==> Keyed(snaps')
    ensures id in snaps' && snaps'[id] == NewSnapshot(id, request)
    ensures forall c :: c in snaps ==> c in snaps' && snaps'[c] == snaps[c]
    ensures forall c :: c in snaps' ==> c in snaps || c == id
  {
    ChainsStopInsert(snaps, id, NewSnapshot(id, request));
    snaps[id := NewSnapshot(id, request)]
  }

  /** The keyword arguments of each `create_classification` call, in result order. */
  function Rows(es: seq<Entry>): (cs: seq<NewClassification>)
    ensures |cs| == |es|
    ensures forall i :: 0 <= i < |es| ==> cs[i] == ToNewClassification(es[i])
  {
    seq(|es|, i requires 0 <= i < |es| => ToNewClassification(es[i]))
  }

  /** The `for classification in results` loop of `classify_snapshot`. */
  method SaveClassifications(db: Db, results: seq<Entry>)
    requires db.Valid()
    modifies db
    ensures db.Valid()
    ensures (db.classifications, db.nextClassificationId)
            == UpsertAll(old(db.classifications), old(db.nextClassificationId), Rows(results))
    ensures db.snapshots == old(db.snapshots)
    ensures db.reviews == old(db.reviews) && db.nextReviewId == old(db.nextReviewId)
  {
    ghost var rows0, next0 := db.classifications, db.nextClassificationId;
    assert Rows(results[..0]) == [];
    for i := 0 to |results|
      invariant db.Valid()
      invariant (db.classifications, db.nextClassificationId) == UpsertAll(rows0, next0, Rows(results[..i]))
      invariant db.snapshots == old(db.snapshots)
      invariant db.reviews == old(db.reviews) && db.nextReviewId == old(db.nextReviewId)
    {
      var c := ToNewClassification(results[i]);
      UpsertAllSnoc(rows0, next0, Rows(results[..i]), c);
      assert Rows(results[..i + 1]) == Rows(results[..i]) + [c];
      var row := db.CreateClassification(c);
    }
    assert results[..|results|] == results;
  }

  /** `classify_snapshot`, with the `uuid4` id of the new snapshot supplied as
      `freshId` and the oracles of `llm_classify_review` as `complete` and
      `decode`. A walk error leaves the endpoint after the snapshot was
      stored and before anything was classified into the table. */
  method ClassifySnapshot(db: Db, freshId: CommitId, request: SnapshotRequest,
                          complete: Prompt -> Completion, decode: string -> Parsed)
    returns (response: Result<seq<Entry>, WalkError>)
    requires db.Valid() && db.IsFresh(freshId) && request.parentCommitId != freshId
    modifies db
    ensures db.Valid()
    ensures db.snapshots == Stored(old(db.snapshots), freshId, request)
    ensures db.reviews == old(db.reviews) && db.nextReviewId == old(db.nextReviewId)
    ensures response == ClassifyCommitsSpec(db.snapshots, db.reviews, ClassifierFor(complete, decode), freshId)
    ensures response.Err? ==> response.error.ParentNotFound?
    ensures response.Ok? ==>
              (db.classifications, db.nextClassificationId)
              == UpsertAll(old(db.classifications), old(db.nextClassificationId), Rows(response.value))
    ensures response.Err? ==>
              db.classifications == old(db.classifications)
              && db.nextClassificationId == old(db.nextClassificationId)
    ensures request.parentCommitId == "" ==>
              response == Ok([]) && db.classifications == old(db.classifications)
    ensures response.Ok? ==>
              && old(db.classifications) <= db.classifications
              && forall k :: 0 <= k < |response.value| ==>
                   |RowsFor(db.classifications, response.value[k].reviewId)| == 1
  {
    ghost var before, beforeId := db.classifications, db.nextClassificationId;
    var merged := db.CreateSnapshot(freshId, request.projectId, Some(request.parentCommitId),
                                    request.developerName, request.codeText, request.language);
    response := ClassifyCommits(db, merged.commitId, ClassifierFor(complete, decode));
    if response.Ok? {
      SaveClassifications(db, response.value);
      UpsertAllProperties(before, beforeId, Rows(response.value));
    }
  }

  // ---------------------------------------------------------------------
  // What a second POST of the same snapshot does
  // ---------------------------------------------------------------------

  /** Inserting a row nobody points at changes no chain that does not start
      at it. */
  lemma {:induction false} ChainIgnoresInsert(snaps: map<CommitId, Snapshot>, id: CommitId, x: Snapshot,
                                              s: Snapshot, n: nat, m: nat)
    requires Unreferenced(snaps, id) && Link(s) != Some(id)
    requires StopsWithin(snaps[id := x], Link(s), n) && StopsWithin(snaps, Link(s), m)
    ensures Ancestors(snaps[id := x], s, n) == Ancestors(snaps, s, m)
    ensures Dangling(snaps[id := x], s, n) == Dangling(snaps, s, m)
    decreases n
  {
    match Link(s)
    case None =>
    case Some(p) =>
      if p in snaps {
        assert snaps[id := x][p] == snaps[p];
        ChainIgnoresInsert(snaps, id, x, snaps[p], n - 1, m - 1);
      }
  }

  /** The chain and its end depend only on the parent link the walk starts from. */
  lemma SameLinkSameChain(snaps: map<CommitId, Snapshot>, s: Snapshot, t: Snapshot, n: nat)
    requires Link(s) == Link(t) && StopsWithin(snaps, Link(s), n)
    ensures Ancestors(snaps, s, n) == Ancestors(snaps, t, n)
    ensures Dangling(snaps, s, n) == Dangling(snaps, t, n)
  {
  }

  /** A second post of the same body gets a new id but the same parent, so
      its chain is the first post's chain. */
  lemma ResubmitSameChain(snaps: map<CommitId, Snapshot>, first: CommitId, second: CommitId,
                          request: SnapshotRequest)
    requires ChainsStop(snaps)
    requires Unreferenced(snaps, first) && request.parentCommitId != first
    requires Unreferenced(Stored(snaps, first, request), second) && request.parentCommitId != second
    ensures var s1 := Stored(snaps, first, request);
            var s2 := Stored(s1, second, request);
            && Ancestors(s2, s2[second], |s2|) == Ancestors(s1, s1[first], |s1|)
            && Dangling(s2, s2[second], |s2|) == Dangling(s1, s1[first], |s1|)
  {
    var s1 := Stored(snaps, first, request);
    var s2 := Stored(s1, second, request);
    var x1, x2 := NewSnapshot(first, request), NewSnapshot(second, request);
    assert s2 == s1[second := x2];
    assert StopsWithin(s1, Link(x1), |s1|);
    assert StopsWithin(s2, Link(x2), |s2|);
    ChainIgnoresInsert(s1, second, x2, x2, |s2|, |s1|);
    SameLinkSameChain(s1, x1, x2, |s1|);
  }

  /** A review the second walk classifies is one the first walk classified
      too, when both walk the same ancestors. */
  lemma SameChainCovers(s1: map<CommitId, Snapshot>, s2: map<CommitId, Snapshot>,
                        reviews: seq<Review>, classify: Classifier,
                        first: CommitId, second: CommitId, e2: Entry)
    requires Tags(classify)
    requires Keyed(s1) && ChainsStop(s1) && first in s1
    requires Keyed(s2) && ChainsStop(s2) && second in s2
    requires Ancestors(s2, s2[second], |s2|) == Ancestors(s1, s1[first], |s1|)
    requires ClassifyCommitsSpec(s1, reviews, classify, first).Ok?
    requires ClassifyCommitsSpec(s2, reviews, classify, second).Ok?
    requires e2 in ClassifyCommitsSpec(s2, reviews, classify, second).value
    ensures exists e1 :: e1 in ClassifyCommitsSpec(s1, reviews, classify, first).value && e1.reviewId == e2.reviewId
  {
    ClassifiedFromAncestor(s2, reviews, classify, second, e2);
    var r, a :| r in reviews && a in Ancestors(s2, s2[second], |s2|) && r.reviewId == e2.reviewId && a.commitId == r.commitId;
    AncestorReviewClassified(s1, reviews, classify, first, r, a);
  }

  /** Two successful walks over the same ancestors classify the same reviews,
      so saving the second walk's results after the first's adds no row. */
  lemma SameChainSameReviews(s1: map<CommitId, Snapshot>, s2: map<CommitId, Snapshot>,
                             reviews: seq<Review>, classify: Classifier,
                             first: CommitId, second: CommitId,
                             rows: seq<Classification>, nextId: nat)
    requires Tags(classify)
    requires Keyed(s1) && ChainsStop(s1) && first in s1
    requires Keyed(s2) && ChainsStop(s2) && second in s2
    requires Ancestors(s2, s2[second], |s2|) == Ancestors(s1, s1[first], |s1|)
    requires ClassifyCommitsSpec(s1, reviews, classify, first).Ok?
    requires ClassifyCommitsSpec(s2, reviews, classify, second).Ok?
    ensures var saved := UpsertAll(rows, nextId, Rows(ClassifyCommitsSpec(s1, reviews, classify, first).value));
            UpsertAll(saved.0, saved.1, Rows(ClassifyCommitsSpec(s2, reviews, classify, second).value)) == saved
  {
    var es1 := ClassifyCommitsSpec(s1, reviews, classify, first).value;
    var es2 := ClassifyCommitsSpec(s2, reviews, classify, second).value;
    var saved := UpsertAll(rows, nextId, Rows(es1));
    forall e2 | e2 in es2
      ensures exists e1 :: e1 in es1 && e1.reviewId == e2.reviewId
    {
      SameChainCovers(s1, s2, reviews, classify, first, second, e2);
    }
    UpsertAllCovers(rows, nextId, Rows(es1));
    CoveredRows(saved.0, es1, es2);
    UpsertAllNoop(saved.0, saved.1, Rows(es2));
  }

  /** When every review of `es2` is also in `es1` and the table has a row
      for each row of `es1`, it has one for each row of `es2`. */
  lemma CoveredRows(table: seq<Classification>, es1: seq<Entry>, es2: seq<Entry>)
    requires forall k :: 0 <= k < |Rows(es1)| ==> FirstFor(table, Rows(es1)[k].reviewId).Some?
    requires forall e2 :: e2 in es2 ==> exists e1 :: e1 in es1 && e1.reviewId == e2.reviewId
    ensures forall k :: 0 <= k < |Rows(es2)| ==> FirstFor(table, Rows(es2)[k].reviewId).Some?
  {
    forall k | 0 <= k < |Rows(es2)|
      ensures FirstFor(table, Rows(es2)[k].reviewId).Some?
    {
      assert es2[k] in es2;
      var e1 :| e1 in es1 && e1.reviewId == es2[k].reviewId;
      var j :| 0 <= j < |es1| && es1[j] == e1;
      assert Rows(es1)[j].reviewId == e1.reviewId;
    }
  }

  /** Posting the same snapshot body a second time fails exactly when the
      first post failed, with the same error, and when both succeed its
      results add no classification row: every review they classify already
      got its row the first time. */
  lemma ResubmitAddsNothing(snaps: map<CommitId, Snapshot>, reviews: seq<Review>,
                            complete: Prompt -> Completion, decode: string -> Parsed,
                            rows: seq<Classification>, nextId: nat,
                            first: CommitId, second: CommitId, request: SnapshotRequest)
    requires Keyed(snaps) && ChainsStop(snaps) && IdsIncreasing(reviews)
    requires Unreferenced(snaps, first) && request.parentCommitId != first
    requires Unreferenced(Stored(snaps, first, request), second) && request.parentCommitId != second
    ensures var s1 := Stored(snaps, first, request);
            var s2 := Stored(s1, second, request);
            var r1 := ClassifyCommitsSpec(s1, reviews, ClassifierFor(complete, decode), first);
            var r2 := ClassifyCommitsSpec(s2, reviews, ClassifierFor(complete, decode), second);
            && (r1.Ok? <==> r2.Ok?)
            && (r1.Err? ==> r1 == r2)
            && (r1.Ok? ==>
                  var saved := UpsertAll(rows, nextId, Rows(r1.value));
                  UpsertAll(saved.0, saved.1, Rows(r2.value)) == saved)
  {
    var classify := ClassifierFor(complete, decode);
    var s1 := Stored(snaps, first, request);
    var s2 := Stored(s1, second, request);
    ResubmitSameChain(snaps, first, second, request);
    WalkDecomposes(s1, reviews, classify, s1[first], |s1|);
    WalkDecomposes(s2, reviews, classify, s2[second], |s2|);
    if ClassifyCommitsSpec(s1, reviews, classify, first).Ok? {
      SameChainSameReviews(s1, s2, reviews, classify, first, second, rows, nextId);
    }
  }

  // ---------------------------------------------------------------------
  // GET /generate_metrics
  // ---------------------------------------------------------------------

  /** The "developer_productivity_metrics" object: "average_suggestions_handled_per_day",
      "suggestion_acceptance_rate", "average_suggestions_handled_per_category_per_day"
      and "dev_specific_recurring_issues". */
  datatype DeveloperProductivity = DeveloperProductivity(
    averageHandledPerDay: map<string, real>,
    acceptanceRate: map<string, real>,
    handledPerCategory: map<string, map<string, nat>>,
    recurringIssues: map<string, seq<Item>>)

  /** The "team_productivity_metrics" object: "average_suggestions_handled_per_day",
      "overall_suggestion_acceptance_rate", "average_suggestions_handled_per_category_per_day"
      and "team_specific_recurring_issues". */
  datatype TeamProductivity = TeamProductivity(
    averageHandledPerDay: real,
    overallAcceptanceRate: real,
    handledPerCategory: map<string, nat>,
    recurringIssues: seq<Item>)

  datatype MetricsResponse = MetricsResponse(
    developer: DeveloperProductivity,
    team: TeamProductivity)

  /** The eight values of `calculate_metrics`, in the order main.py unpacks them. */
  function Unpack(m: Metrics)
    : (map<string, real>, map<string, real>, map<string, map<string, nat>>, map<string, seq<Item>>,
       real, real, map<string, nat>, seq<Item>)
  {
    (m.avgPerDev, m.acceptanceRate, m.perDevCategory, m.groupedIssues,
     m.teamAvgHandled, m.teamAcceptanceRate, m.teamCategoryCounts, m.teamGroupedIssues)
  }

  /** Reads the eight values back out of the response document. */
  function FromResponse(r: MetricsResponse): Metrics {
    Metrics(r.developer.averageHandledPerDay, r.developer.acceptanceRate,
            r.developer.handledPerCategory, r.developer.recurringIssues,
            r.team.averageHandledPerDay, r.team.overallAcceptanceRate,
            r.team.handledPerCategory, r.team.recurringIssues)
  }

  /** The response document: every value lands under its own key, none is
      lost or swapped. */
  function ResponseOf(m: Metrics): (r: MetricsResponse)
    ensures FromResponse(r) == m
  {
    var (perDev, rate, perCat, issues, teamAvg, teamRate, teamCat, teamIssues) := Unpack(m);
    MetricsResponse(DeveloperProductivity(perDev, rate, perCat, issues),
                    TeamProductivity(teamAvg, teamRate, teamCat, teamIssues))
  }

  /** `generate_metrics` over the joined classification rows: the response
      document, or the grouping exception that escapes `calculate_metrics`. */
  method GenerateMetrics(records: seq<Record>, complete: seq<string> -> string, decode: string -> GroupReply)
    returns (r: Result<MetricsResponse, MetricsError>)
    ensures r.Ok? <==> GroupingsOk(TallyOf(records), complete, decode)
    ensures r.Ok? ==> FromResponse(r.value) == MetricsOf(TallyOf(records), complete, decode)
    ensures r.Err? ==> (r.error.DeveloperGroupingRaised? <==> !DevGroupingsOk(TallyOf(records), complete, decode))
    ensures r.Err? && r.error.DeveloperGroupingRaised? ==>
              exists d :: d in TallyOf(records).rawIssuesByDev
                          && DevGroupings(TallyOf(records), complete, decode)[d] == Err(r.error.error)
    ensures r.Err? && r.error.TeamGroupingRaised? ==>
              r.error.error == TopIssuesOf(TallyOf(records).rawIssuesTeam, complete, decode).error
  {
    var m := CalculateMetrics(records, complete, decode);
    if m.Err? {
      return Err(m.error);
    }
    return Ok(ResponseOf(m.value));
  }
}
