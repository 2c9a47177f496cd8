/** The three tables the pipeline reads and writes (db/db_operations.py), as an
    in-memory store: code snapshots keyed by commit id, review suggestions with
    auto-incremented ids, and review classifications. */
module Store {
  import opened Wrappers

  type CommitId = string

  /** A row of `code_snapshots`; `created_at` is left out. */
  datatype Snapshot = Snapshot(
    commitId: CommitId,
    projectId: string,
    parent: Option<CommitId>,
    developer: string,
    codeText: string,
    language: string)

  /** A row of `code_review_suggestions`; `created_at` is left out. */
  datatype Review = Review(
    reviewId: nat,
    commitId: CommitId,
    lineStart: Option<int>,
    lineEnd: Option<int>,
    suggestion: string,
    severity: Option<string>)

  /** The rationale column. The source renders it with f-strings (and a float
      format for the confidence); the model keeps the parts that go in. */
  datatype Rationale =
    | Given(text: string)                            // the oracle's own rationale
    | LowConfidence(confidence: real, text: string)  // "Low confidence (..), queued for manual verification. Rationale: .."
    | ParseFailure(excerpt: string, error: string)   // "Failed to parse model response: raw[:200] | error=.."
    | ClassifierError(error: string)                 // "Error, queued for manual verification .."

  /** The arguments of `create_classification`. */
  datatype NewClassification = NewClassification(
    reviewId: nat,
    category: string,
    classification: string,
    recurringIssue: string,
    confidence: real,
    rationale: Rationale)

  /** A row of `review_classifications`; `created_at` is left out. */
  datatype Classification = Classification(classificationId: nat, fields: NewClassification)

  // ---------------------------------------------------------------------
  // Parent chains
  // ---------------------------------------------------------------------

  /** `parent_commit_id if parent_commit_id else None`: what create_snapshot
      stores for the parent; None and "" both make the snapshot a chain root. */
  function StoredParent(parent: Option<CommitId>): (r: Option<CommitId>)
    ensures r.None? <==> parent == None || parent == Some("")
    ensures r.Some? ==> r == parent && r.value != ""
  {
    if parent.Some? && parent.value != "" then parent else None
  }

  /** The parent the chain walk follows: `while current.parent_commit_id:` only
      steps on a truthy (present and non-empty) id. */
  function Link(s: Snapshot): Option<CommitId> {
    StoredParent(s.parent)
  }

  /** Following parent links from `link`, the walk reaches a root or a parent
      id that is not stored within `n` steps. */
  predicate StopsWithin(snaps: map<CommitId, Snapshot>, link: Option<CommitId>, n: nat)
    decreases n
  {
    match link
    case None => true
    case Some(id) => n > 0 && (id in snaps ==> StopsWithin(snaps, Link(snaps[id]), n - 1))
  }

  /** Every stored snapshot's parent chain ends (no cycle): the walk from it
      stops within as many steps as there are snapshots. */
  predicate ChainsStop(snaps: map<CommitId, Snapshot>) {
    forall c :: c in snaps ==> StopsWithin(snaps, Link(snaps[c]), |snaps|)
  }

  lemma {:induction false} StopsWithinMonotone(snaps: map<CommitId, Snapshot>, link: Option<CommitId>, n: nat, m: nat)
    requires StopsWithin(snaps, link, n) && n <= m
    ensures StopsWithin(snaps, link, m)
    decreases n
  {
    if link.Some? && link.value in snaps {
      StopsWithinMonotone(snaps, Link(snaps[link.value]), n - 1, m - 1);
    }
  }

  /** No stored snapshot points at `id` and `id` is not a key. */
  predicate Unreferenced(snaps: map<CommitId, Snapshot>, id: CommitId) {
    id !in snaps && forall c :: c in snaps ==> Link(snaps[c]) != Some(id)
  }

  /** Adding a snapshot under an unreferenced id does not change where any
      existing chain stops. */
  lemma {:induction false} StopsWithinExtend(snaps: map<CommitId, Snapshot>, id: CommitId, s: Snapshot,
                                             link: Option<CommitId>, n: nat)
    requires Unreferenced(snaps, id) && link != Some(id)
    requires StopsWithin(snaps, link, n)
    ensures StopsWithin(snaps[id := s], link, n)
    decreases n
  {
    if link.Some? && link.value in snaps {
      StopsWithinExtend(snaps, id, s, Link(snaps[link.value]), n - 1);
    }
  }

  /** The chain invariant survives the insertion of a snapshot under a fresh id. */
  lemma ChainsStopInsert(snaps: map<CommitId, Snapshot>, id: CommitId, s: Snapshot)
    requires ChainsStop(snaps) && Unreferenced(snaps, id) && Link(s) != Some(id)
    ensures ChainsStop(snaps[id := s])
  {
    var snaps' := snaps[id := s];
    assert |snaps'| == |snaps| + 1;
    forall c | c in snaps'
      ensures StopsWithin(snaps', Link(snaps'[c]), |snaps'|)
    {
      if c == id {
        match Link(s)
        case None =>
        case Some(p) =>
          if p in snaps {
            assert p != id;
            StopsWithinExtend(snaps, id, s, Link(snaps[p]), |snaps|);
          }
      } else {
        StopsWithinExtend(snaps, id, s, Link(snaps[c]), |snaps|);
        StopsWithinMonotone(snaps', Link(snaps[c]), |snaps|, |snaps'|);
      }
    }
  }

  // ---------------------------------------------------------------------
  // Reviews
  // ---------------------------------------------------------------------

  /** Review ids strictly increase in store order: the auto-increment key. */
  predicate IdsIncreasing(rs: seq<Review>) {
    forall i, j :: 0 <= i < j < |rs| ==> rs[i].reviewId < rs[j].reviewId
  }

  /** `get_reviews_for_commit`: the reviews whose commit id is `c`, in store order. */
  function ReviewsOf(rs: seq<Review>, c: CommitId): (r: seq<Review>)
    ensures forall x :: x in r <==> x in rs && x.commitId == c
    ensures |r| <= |rs|
  {
    if rs == [] then []
    else
      var init, last := rs[..|rs| - 1], rs[|rs| - 1];
      assert rs == init + [last];
      var r0 := ReviewsOf(init, c);
      if last.commitId == c then r0 + [last] else r0
  }

  /** Filtering keeps the store's increasing order of review ids. */
  lemma {:induction false} ReviewsOfIncreasing(rs: seq<Review>, c: CommitId)
    requires IdsIncreasing(rs)
    ensures IdsIncreasing(ReviewsOf(rs, c))
    decreases |rs|
  {
    if rs != [] {
      var init, last := rs[..|rs| - 1], rs[|rs| - 1];
      assert IdsIncreasing(init);
      ReviewsOfIncreasing(init, c);
      var r0 := ReviewsOf(init, c);
      if last.commitId == c {
        assert forall x :: x in r0 ==> x in init;
        assert forall x :: x in init ==> x.reviewId < last.reviewId;
        assert IdsIncreasing(r0 + [last]);
      }
    }
  }

  // ---------------------------------------------------------------------
  // Classifications
  // ---------------------------------------------------------------------

  /** The guarded property: no two classification rows for one review. */
  predicate AtMostOnePerReview(rows: seq<Classification>) {
    forall i, j :: 0 <= i < j < |rows| ==> rows[i].fields.reviewId != rows[j].fields.reviewId
  }

  /** `get_classifications_for_review`: the rows for `reviewId`, in store order. */
  function RowsFor(rows: seq<Classification>, reviewId: nat): (r: seq<Classification>)
    ensures forall x :: x in r <==> x in rows && x.fields.reviewId == reviewId
    ensures |r| <= |rows|
    ensures r == [] <==> forall i :: 0 <= i < |rows| ==> rows[i].fields.reviewId != reviewId
  {
    if rows == [] then []
    else
      var init, last := rows[..|rows| - 1], rows[|rows| - 1];
      assert rows == init + [last];
      var r0 := RowsFor(init, reviewId);
      if last.fields.reviewId == reviewId then r0 + [last] else r0
  }

  /** The existence check of `create_classification`: the first row for the review. */
  function FirstFor(rows: seq<Classification>, reviewId: nat): (r: Option<Classification>)
    ensures r.None? <==> forall i :: 0 <= i < |rows| ==> rows[i].fields.reviewId != reviewId
    ensures r.Some? ==> r.value in rows && r.value.fields.reviewId == reviewId
  {
    if rows == [] then None
    else if rows[0].fields.reviewId == reviewId then Some(rows[0])
    else
      var r := FirstFor(rows[1..], reviewId);
      assert forall i :: 1 <= i < |rows| ==> rows[i] == rows[1..][i - 1];
      r
  }

  /** The table after `create_classification(c)` with auto-increment counter `nextId`:
      unchanged when the review already has a row, else one row appended. */
  function Upsert(rows: seq<Classification>, nextId: nat, c: NewClassification)
    : (seq<Classification>, nat)
  {
    if FirstFor(rows, c.reviewId).Some? then (rows, nextId)
    else (rows + [Classification(nextId, c)], nextId + 1)
  }

  /** main.py's save loop: `create_classification` for every result, in order. */
  function UpsertAll(rows: seq<Classification>, nextId: nat, cs: seq<NewClassification>)
    : (seq<Classification>, nat)
    decreases |cs|
  {
    if cs == [] then (rows, nextId)
    else
      var (rows', next') := Upsert(rows, nextId, cs[0]);
      UpsertAll(rows', next', cs[1..])
  }

  /** The check-then-insert guard keeps "at most one row per review", never
      touches an existing row, and leaves the review with a row afterwards. */
  lemma UpsertKeepsAtMostOne(rows: seq<Classification>, nextId: nat, c: NewClassification)
    requires AtMostOnePerReview(rows)
    ensures var (rows', _) := Upsert(rows, nextId, c);
            AtMostOnePerReview(rows') && rows <= rows' && FirstFor(rows', c.reviewId).Some?
  {
    UpsertCovers(rows, nextId, c);
  }

  /** After `create_classification` the review has a row, and rows are only appended. */
  lemma UpsertCovers(rows: seq<Classification>, nextId: nat, c: NewClassification)
    ensures var (rows', _) := Upsert(rows, nextId, c);
            rows <= rows' && FirstFor(rows', c.reviewId).Some?
  {
    var (rows', _) := Upsert(rows, nextId, c);
    if FirstFor(rows, c.reviewId).None? {
      assert rows'[|rows'| - 1].fields.reviewId == c.reviewId;
    }
  }

  /** After the save loop every result's review has exactly one row, the rows
      that were there before are intact (never overwritten), and nothing else
      was added. */
  lemma {:induction false} UpsertAllProperties(rows: seq<Classification>, nextId: nat, cs: seq<NewClassification>)
    requires AtMostOnePerReview(rows)
    ensures var (rows', _) := UpsertAll(rows, nextId, cs);
            && AtMostOnePerReview(rows')
            && rows <= rows'
            && (forall k :: 0 <= k < |cs| ==> |RowsFor(rows', cs[k].reviewId)| == 1)
            && (forall i :: |rows| <= i < |rows'| ==> exists k :: 0 <= k < |cs| && rows'[i].fields == cs[k])
    decreases |cs|
  {
    if cs != [] {
      var (r1, n1) := Upsert(rows, nextId, cs[0]);
      UpsertKeepsAtMostOne(rows, nextId, cs[0]);
      UpsertAllProperties(r1, n1, cs[1..]);
      var (rows', _) := UpsertAll(rows, nextId, cs);
      assert rows' == UpsertAll(r1, n1, cs[1..]).0;
      assert FirstFor(r1, cs[0].reviewId).Some?;
      forall k | 0 <= k < |cs|
        ensures |RowsFor(rows', cs[k].reviewId)| == 1
      {
        if k == 0 {
          OneRowFor(rows', cs[0].reviewId, FirstFor(r1, cs[0].reviewId).value);
        } else {
          assert cs[k] == cs[1..][k - 1];
        }
      }
      forall i | |rows| <= i < |rows'|
        ensures exists k :: 0 <= k < |cs| && rows'[i].fields == cs[k]
      {
        if i < |r1| {
          assert rows'[i] == r1[i];
          assert rows'[i].fields == cs[0];
        } else {
          var k :| 0 <= k < |cs[1..]| && rows'[i].fields == cs[1..][k];
          assert rows'[i].fields == cs[k + 1];
        }
      }
    }
  }

  /** With at most one row per review, a review that has a row has exactly one. */
  lemma OneRowFor(rows: seq<Classification>, reviewId: nat, x: Classification)
    requires AtMostOnePerReview(rows) && x in rows && x.fields.reviewId == reviewId
    ensures |RowsFor(rows, reviewId)| == 1
  {
    var r := RowsFor(rows, reviewId);
    assert x in r;
    if |r| > 1 {
      RowsForDistinct(rows, reviewId);
    }
  }

  /** Two rows of `RowsFor` are two distinct rows of the table. */
  lemma {:induction false} RowsForDistinct(rows: seq<Classification>, reviewId: nat)
    ensures AtMostOnePerReview(rows) ==> |RowsFor(rows, reviewId)| <= 1
    decreases |rows|
  {
    if rows != [] && AtMostOnePerReview(rows) {
      var init, last := rows[..|rows| - 1], rows[|rows| - 1];
      assert rows == init + [last];
      RowsForDistinct(init, reviewId);
      if last.fields.reviewId == reviewId {
        assert forall i :: 0 <= i < |init| ==> init[i].fields.reviewId != reviewId by {
          assert forall i :: 0 <= i < |init| ==> init[i] == rows[i];
        }
      }
    }
  }

  /** Re-running the save loop with the same results changes nothing: the
      end-to-end idempotency of classify_snapshot's persistence step. */
  lemma {:induction false} UpsertAllIdempotent(rows: seq<Classification>, nextId: nat, cs: seq<NewClassification>)
    ensures var (rows', next') := UpsertAll(rows, nextId, cs);
            UpsertAll(rows', next', cs) == (rows', next')
  {
    var (rows', next') := UpsertAll(rows, nextId, cs);
    UpsertAllCovers(rows, nextId, cs);
    UpsertAllNoop(rows', next', cs);
  }

  /** After the loop each result's review has a row; rows are only ever appended. */
  lemma {:induction false} UpsertAllCovers(rows: seq<Classification>, nextId: nat, cs: seq<NewClassification>)
    ensures var (rows', _) := UpsertAll(rows, nextId, cs);
            rows <= rows' && forall k :: 0 <= k < |cs| ==> FirstFor(rows', cs[k].reviewId).Some?
    decreases |cs|
  {
    if cs != [] {
      var (r1, n1) := Upsert(rows, nextId, cs[0]);
      UpsertCovers(rows, nextId, cs[0]);
      UpsertAllCovers(r1, n1, cs[1..]);
      var (rows', _) := UpsertAll(rows, nextId, cs);
      assert rows' == UpsertAll(r1, n1, cs[1..]).0;
      var x := FirstFor(r1, cs[0].reviewId).value;
      assert x in rows';
      forall k | 0 <= k < |cs|
        ensures FirstFor(rows', cs[k].reviewId).Some?
      {
        if k > 0 {
          assert cs[k] == cs[1..][k - 1];
        }
      }
    }
  }

  /** The loop is a no-op when every result's review already has a row. */
  lemma {:induction false} UpsertAllNoop(rows: seq<Classification>, nextId: nat, cs: seq<NewClassification>)
    requires forall k :: 0 <= k < |cs| ==> FirstFor(rows, cs[k].reviewId).Some?
    ensures UpsertAll(rows, nextId, cs) == (rows, nextId)
    decreases |cs|
  {
    if cs != [] {
      assert FirstFor(rows, cs[0].reviewId).Some?;
      forall k | 0 <= k < |cs[1..]|
        ensures FirstFor(rows, cs[1..][k].reviewId).Some?
      {
        assert cs[1..][k] == cs[k + 1];
      }
      UpsertAllNoop(rows, nextId, cs[1..]);
    }
  }

  /** The save loop over one more result is the loop over the others followed
      by one more `create_classification`. */
  lemma {:induction false} UpsertAllSnoc(rows: seq<Classification>, nextId: nat,
                                         cs: seq<NewClassification>, c: NewClassification)
    ensures UpsertAll(rows, nextId, cs + [c])
            == Upsert(UpsertAll(rows, nextId, cs).0, UpsertAll(rows, nextId, cs).1, c)
    decreases |cs|
  {
    if cs == [] {
      assert cs + [c] == [c];
      assert [c][1..] == [];
    } else {
      var (r1, n1) := Upsert(rows, nextId, cs[0]);
      assert (cs + [c])[0] == cs[0];
      assert (cs + [c])[1..] == cs[1..] + [c];
      UpsertAllSnoc(r1, n1, cs[1..], c);
    }
  }


  /** The tables. Fields are reassigned by the `create_*` methods, as the ORM
      session's add + commit mutates the database. */
  class Db {
    var snapshots: map<CommitId, Snapshot>
    var reviews: seq<Review>
    var nextReviewId: nat
    var classifications: seq<Classification>
    var nextClassificationId: nat

    /** Primary keys are consistent, auto-increment counters are ahead of every
        id, every parent chain ends, and no review has two classification
        rows. */
    ghost predicate Valid()
      reads this
    {
      && (forall c :: c in snapshots ==> snapshots[c].commitId == c)
      && ChainsStop(snapshots)
      && IdsIncreasing(reviews)
      && (forall i :: 0 <= i < |reviews| ==> reviews[i].reviewId < nextReviewId)
      && (forall i :: 0 <= i < |classifications| ==> classifications[i].classificationId < nextClassificationId)
      && AtMostOnePerReview(classifications)
    }

    constructor ()
      ensures Valid()
      ensures snapshots == map[] && reviews == [] && classifications == []
    {
      snapshots := map[];
      reviews := [];
      nextReviewId := 1;
      classifications := [];
      nextClassificationId := 1;
    }

    /** A commit id `uuid4` could produce: no snapshot has it or points at it. */
    predicate IsFresh(id: CommitId)
      reads this
    {
      Unreferenced(snapshots, id)
    }

    /** `create_snapshot`, with the `uuid4` id supplied by the caller. */
    method CreateSnapshot(commitId: CommitId, projectId: string, parent: Option<CommitId>,
                          developer: string, codeText: string, language: string)
      returns (s: Snapshot)
      requires Valid() && IsFresh(commitId)
      requires parent != Some(commitId)  // the id is generated after the caller chose the parent
      modifies this
      ensures Valid()
      ensures s == Snapshot(commitId, projectId, StoredParent(parent), developer, codeText, language)
      ensures snapshots == old(snapshots)[commitId := s]
      ensures commitId !in old(snapshots)
      ensures reviews == old(reviews) && nextReviewId == old(nextReviewId)
      ensures classifications == old(classifications) && nextClassificationId == old(nextClassificationId)
    {
      s := Snapshot(commitId, projectId, StoredParent(parent), developer, codeText, language);
      ChainsStopInsert(snapshots, commitId, s);
      snapshots := snapshots[commitId := s];
    }

    /** `get_snapshot_by_commit`: the snapshot with that primary key, or None. */
    function GetSnapshotByCommit(c: CommitId): (r: Option<Snapshot>)
      reads this
      requires Valid()
      ensures r.Some? <==> c in snapshots
      ensures r.Some? ==> r.value == snapshots[c] && r.value.commitId == c
    {
      if c in snapshots then Some(snapshots[c]) else None
    }

    /** `create_review`: appends one review under a new auto-increment id. */
    method CreateReview(commitId: CommitId, lineStart: Option<int>, lineEnd: Option<int>,
                        suggestion: string, severity: Option<string>)
      returns (r: Review)
      requires Valid()
      modifies this
      ensures Valid()
      ensures r == Review(old(nextReviewId), commitId, lineStart, lineEnd, suggestion, severity)
      ensures forall x :: x in old(reviews) ==> x.reviewId != r.reviewId
      ensures reviews == old(reviews) + [r] && nextReviewId == old(nextReviewId) + 1
      ensures snapshots == old(snapshots)
      ensures classifications == old(classifications) && nextClassificationId == old(nextClassificationId)
    {
      r := Review(nextReviewId, commitId, lineStart, lineEnd, suggestion, severity);
      reviews := reviews + [r];
      nextReviewId := nextReviewId + 1;
    }

    /** `get_reviews_for_commit`. */
    function GetReviewsForCommit(c: CommitId): (r: seq<Review>)
      reads this
      requires Valid()
      ensures forall x :: x in r <==> x in reviews && x.commitId == c
      ensures IdsIncreasing(r)
    {
      ReviewsOfIncreasing(reviews, c);
      ReviewsOf(reviews, c)
    }

    /** `create_classification`: returns the existing row for the review and
        leaves the table alone, or inserts one row with the given fields. */
    method CreateClassification(c: NewClassification) returns (row: Classification)
      requires Valid()
      modifies this
      ensures Valid()
      ensures (classifications, nextClassificationId)
              == Upsert(old(classifications), old(nextClassificationId), c)
      ensures FirstFor(old(classifications), c.reviewId).Some? ==>
                row == FirstFor(old(classifications), c.reviewId).value
      ensures FirstFor(old(classifications), c.reviewId).None? ==>
                row == Classification(old(nextClassificationId), c)
      ensures old(AtMostOnePerReview(classifications)) ==> AtMostOnePerReview(classifications)
      ensures snapshots == old(snapshots) && reviews == old(reviews) && nextReviewId == old(nextReviewId)
    {
      var existing := FirstFor(classifications, c.reviewId);
      if existing.Some? {
        return existing.value;
      }
      row := Classification(nextClassificationId, c);
      classifications := classifications + [row];
      nextClassificationId := nextClassificationId + 1;
    }

    /** `get_classifications_for_review`. */
    function GetClassificationsForReview(reviewId: nat): (r: seq<Classification>)
      reads this
      ensures forall x :: x in r <==> x in classifications && x.fields.reviewId == reviewId
      ensures AtMostOnePerReview(classifications) ==> |r| <= 1
    {
      RowsForDistinct(classifications, reviewId);
      RowsFor(classifications, reviewId)
    }
  }
}
