/** The commit-chain walk of `classify_commits`
    (agents/prod_metrics/classify_reviews.py): from a target snapshot, follow
    parent links to the root and classify each parent's reviews against the
    snapshot one step nearer the target. */
module CommitChain {
  import opened Wrappers
  import opened Store
  import opened ReviewClassifier

  /** The two `ValueError`s `classify_commits` raises. */
  datatype WalkError = CommitNotFound(commitId: CommitId) | ParentNotFound(commitId: CommitId)

  /** The snapshot table's primary key is the snapshot's own commit id. */
  predicate Keyed(snaps: map<CommitId, Snapshot>) {
    forall c :: c in snaps ==> snaps[c].commitId == c
  }

  /** How one review is classified against a parent and its child. */
  type Classifier = (Review, Snapshot, Snapshot) -> Entry

  /** A classifier that tags each entry with its review and the pair. */
  ghost predicate Tags(classify: Classifier) {
    forall r, p, c :: && classify(r, p, c).reviewId == r.reviewId
                      && classify(r, p, c).parentCommitId == p.commitId
                      && classify(r, p, c).childCommitId == c.commitId
  }

  /** The classifier `classify_commits` uses: `llm_classify_review` with its
      exception fallback, over the given oracles. */
  function ClassifierFor(complete: Prompt -> Completion, decode: string -> Parsed): (f: Classifier)
    ensures Tags(f)
  {
    (r, p, c) => ClassifyOne(r, p, c, complete, decode)
  }

  /** The inner `for review in parent_reviews` loop: one entry per review, in
      order, each classified against the same parent and child. */
  function ClassifyAll(rs: seq<Review>, parent: Snapshot, child: Snapshot,
                       classify: Classifier): (es: seq<Entry>)
    ensures |es| == |rs|
    ensures forall i :: 0 <= i < |rs| ==> es[i] == classify(rs[i], parent, child)
  {
    if rs == [] then []
    else ClassifyAll(rs[..|rs| - 1], parent, child, classify)
         + [classify(rs[|rs| - 1], parent, child)]
  }

  /** The outer `while` loop from `current`, with `n` as the step budget the
      chain invariant guarantees. */
  function WalkFrom(snaps: map<CommitId, Snapshot>, reviews: seq<Review>,
                    classify: Classifier,
                    current: Snapshot, n: nat): (r: Result<seq<Entry>, WalkError>)
    requires StopsWithin(snaps, Link(current), n)
    ensures r.Err? ==> r.error.ParentNotFound? && r.error.commitId !in snaps
    decreases n
  {
    match Link(current)
    case None => Ok([])
    case Some(p) =>
      if p !in snaps then Err(ParentNotFound(p))
      else
        var parent := snaps[p];
        var here := ClassifyAll(ReviewsOf(reviews, parent.commitId), parent, current, classify);
        match WalkFrom(snaps, reviews, classify, parent, n - 1)
        case Err(e) => Err(e)
        case Ok(rest) => Ok(here + rest)
  }

  /** `classify_commits(db, target)` on the tables `snaps` and `reviews`. */
  function ClassifyCommitsSpec(snaps: map<CommitId, Snapshot>, reviews: seq<Review>,
                               classify: Classifier,
                               target: CommitId): (r: Result<seq<Entry>, WalkError>)
    requires ChainsStop(snaps)
    ensures r.Err? && r.error.CommitNotFound? <==> target !in snaps
    ensures r.Err? && r.error.ParentNotFound? ==> r.error.commitId !in snaps
    ensures target in snaps && Link(snaps[target]).None? ==> r == Ok([])
  {
    if target !in snaps then Err(CommitNotFound(target))
    else WalkFrom(snaps, reviews, classify, snaps[target], |snaps|)
  }

  // ---------------------------------------------------------------------
  // The chain: a reference definition of what the walk visits
  // ---------------------------------------------------------------------

  /** The stored ancestors of `current`, nearest first, up to the root or the
      first parent id that is not stored. */
  function Ancestors(snaps: map<CommitId, Snapshot>, current: Snapshot, n: nat): (a: seq<Snapshot>)
    requires StopsWithin(snaps, Link(current), n)
    ensures |a| <= n
    decreases n
  {
    match Link(current)
    case None => []
    case Some(p) => if p in snaps then [snaps[p]] + Ancestors(snaps, snaps[p], n - 1) else []
  }

  /** The parent id the chain from `current` ends on when it is not stored. */
  function Dangling(snaps: map<CommitId, Snapshot>, current: Snapshot, n: nat): (d: Option<CommitId>)
    requires StopsWithin(snaps, Link(current), n)
    ensures d.Some? ==> d.value !in snaps
    decreases n
  {
    match Link(current)
    case None => None
    case Some(p) => if p in snaps then Dangling(snaps, snaps[p], n - 1) else Some(p)
  }

  /** The child of the `j`-th ancestor: `child` itself, or the previous ancestor. */
  function Prev(anc: seq<Snapshot>, child: Snapshot, j: nat): Snapshot
    requires j <= |anc|
  {
    if j == 0 then child else anc[j - 1]
  }

  /** The entries for a chain of ancestors: each ancestor's reviews against its child. */
  function Along(reviews: seq<Review>, classify: Classifier,
                 anc: seq<Snapshot>, child: Snapshot): seq<Entry>
    decreases |anc|
  {
    if anc == [] then []
    else ClassifyAll(ReviewsOf(reviews, anc[0].commitId), anc[0], child, classify)
         + Along(reviews, classify, anc[1..], anc[0])
  }

  /** The walk is the chain: it fails on the dangling id if there is one, and
      otherwise yields the entries along the ancestors. */
  lemma {:induction false} WalkDecomposes(snaps: map<CommitId, Snapshot>, reviews: seq<Review>,
                                          classify: Classifier,
                                          current: Snapshot, n: nat)
    requires StopsWithin(snaps, Link(current), n)
    ensures WalkFrom(snaps, reviews, classify, current, n)
            == match Dangling(snaps, current, n)
               case Some(p) => Err(ParentNotFound(p))
               case None => Ok(Along(reviews, classify, Ancestors(snaps, current, n), current))
    decreases n
  {
    match Link(current)
    case None =>
    case Some(p) =>
      if p in snaps {
        WalkDecomposes(snaps, reviews, classify, snaps[p], n - 1);
        var anc := Ancestors(snaps, current, n);
        assert anc[0] == snaps[p];
        assert anc[1..] == Ancestors(snaps, snaps[p], n - 1);
      }
  }

  /** The chain does not depend on the step budget, once the budget suffices. */
  lemma {:induction false} AncestorsFuel(snaps: map<CommitId, Snapshot>, s: Snapshot, n: nat, m: nat)
    requires StopsWithin(snaps, Link(s), n) && StopsWithin(snaps, Link(s), m)
    ensures Ancestors(snaps, s, n) == Ancestors(snaps, s, m)
    decreases n
  {
    if Link(s).Some? && Link(s).value in snaps {
      AncestorsFuel(snaps, snaps[Link(s).value], n - 1, m - 1);
    }
  }

  /** The chain from the `k`-th ancestor is the rest of the chain. */
  lemma {:induction false} AncestorsSuffix(snaps: map<CommitId, Snapshot>, s: Snapshot, n: nat, k: nat)
    requires StopsWithin(snaps, Link(s), n) && k < |Ancestors(snaps, s, n)|
    ensures var anc := Ancestors(snaps, s, n);
            && k + 1 <= n
            && StopsWithin(snaps, Link(anc[k]), n - 1 - k)
            && Ancestors(snaps, anc[k], n - 1 - k) == anc[k + 1..]
    decreases n
  {
    var anc := Ancestors(snaps, s, n);
    var p := Link(s).value;
    assert p in snaps && anc == [snaps[p]] + Ancestors(snaps, snaps[p], n - 1);
    if k > 0 {
      AncestorsSuffix(snaps, snaps[p], n - 1, k - 1);
      assert anc[k] == Ancestors(snaps, snaps[p], n - 1)[k - 1];
      assert anc[k + 1..] == Ancestors(snaps, snaps[p], n - 1)[k..];
    }
  }

  /** No snapshot is visited twice, and the walk never returns to where it started. */
  lemma AncestorsDistinct(snaps: map<CommitId, Snapshot>, s: Snapshot, n: nat)
    requires StopsWithin(snaps, Link(s), n)
    ensures var anc := Ancestors(snaps, s, n);
            && (forall i, k :: 0 <= i < k < |anc| ==> anc[i] != anc[k])
            && (forall k :: 0 <= k < |anc| ==> anc[k] != s)
  {
    var anc := Ancestors(snaps, s, n);
    forall i, k | 0 <= i < k < |anc|
      ensures anc[i] != anc[k]
    {
      AncestorsSuffix(snaps, s, n, i);
      AncestorsSuffix(snaps, s, n, k);
      StopsWithinMonotone(snaps, Link(anc[k]), n - 1 - k, n - 1 - i);
      AncestorsFuel(snaps, anc[k], n - 1 - k, n - 1 - i);
      assert |Ancestors(snaps, anc[i], n - 1 - i)| != |Ancestors(snaps, anc[k], n - 1 - i)|;
    }
    forall k | 0 <= k < |anc|
      ensures anc[k] != s
    {
      AncestorsSuffix(snaps, s, n, k);
      StopsWithinMonotone(snaps, Link(anc[k]), n - 1 - k, n);
      AncestorsFuel(snaps, anc[k], n - 1 - k, n);
      assert |Ancestors(snaps, s, n)| != |Ancestors(snaps, anc[k], n)|;
    }
  }

  /** Each ancestor is stored under its own id and is the parent its child
      names; the chain ends on the parent link of its last snapshot. */
  lemma AncestorsChain(snaps: map<CommitId, Snapshot>, s: Snapshot, n: nat)
    requires Keyed(snaps) && StopsWithin(snaps, Link(s), n)
    ensures var anc := Ancestors(snaps, s, n);
            && (forall j :: 0 <= j < |anc| ==> anc[j].commitId in snaps && snaps[anc[j].commitId] == anc[j])
            && (forall j :: 0 <= j < |anc| ==> Link(Prev(anc, s, j)) == Some(anc[j].commitId))
            && Dangling(snaps, s, n) == Link(Prev(anc, s, |anc|))
  {
    AncestorsStored(snaps, s, n);
    AncestorsLinked(snaps, s, n);
    AncestorsDangling(snaps, s, n);
  }

  lemma {:induction false} AncestorsStored(snaps: map<CommitId, Snapshot>, s: Snapshot, n: nat)
    requires Keyed(snaps) && StopsWithin(snaps, Link(s), n)
    ensures forall j :: 0 <= j < |Ancestors(snaps, s, n)| ==>
              Ancestors(snaps, s, n)[j].commitId in snaps && snaps[Ancestors(snaps, s, n)[j].commitId] == Ancestors(snaps, s, n)[j]
    decreases n
  {
    match Link(s)
    case None =>
    case Some(p) =>
      if p in snaps {
        var anc, rest := Ancestors(snaps, s, n), Ancestors(snaps, snaps[p], n - 1);
        AncestorsStored(snaps, snaps[p], n - 1);
        assert anc == [snaps[p]] + rest;
        forall j | 0 <= j < |anc|
          ensures anc[j].commitId in snaps && snaps[anc[j].commitId] == anc[j]
        {
          if j > 0 {
            assert anc[j] == rest[j - 1];
          }
        }
      }
  }

  lemma {:induction false} AncestorsLinked(snaps: map<CommitId, Snapshot>, s: Snapshot, n: nat)
    requires Keyed(snaps) && StopsWithin(snaps, Link(s), n)
    ensures forall j :: 0 <= j < |Ancestors(snaps, s, n)| ==>
              Link(Prev(Ancestors(snaps, s, n), s, j)) == Some(Ancestors(snaps, s, n)[j].commitId)
    decreases n
  {
    match Link(s)
    case None =>
    case Some(p) =>
      if p in snaps {
        var anc, rest := Ancestors(snaps, s, n), Ancestors(snaps, snaps[p], n - 1);
        AncestorsLinked(snaps, snaps[p], n - 1);
        assert anc == [snaps[p]] + rest;
        forall j | 0 <= j < |anc|
          ensures Link(Prev(anc, s, j)) == Some(anc[j].commitId)
        {
          if j > 0 {
            assert anc[j] == rest[j - 1];
            assert Prev(anc, s, j) == Prev(rest, snaps[p], j - 1);
          }
        }
      }
  }

  lemma {:induction false} AncestorsDangling(snaps: map<CommitId, Snapshot>, s: Snapshot, n: nat)
    requires Keyed(snaps) && StopsWithin(snaps, Link(s), n)
    ensures Dangling(snaps, s, n) == Link(Prev(Ancestors(snaps, s, n), s, |Ancestors(snaps, s, n)|))
    decreases n
  {
    match Link(s)
    case None =>
    case Some(p) =>
      if p in snaps {
        var anc, rest := Ancestors(snaps, s, n), Ancestors(snaps, snaps[p], n - 1);
        AncestorsDangling(snaps, snaps[p], n - 1);
        assert anc == [snaps[p]] + rest;
        if |rest| > 0 {
          assert Prev(anc, s, |anc|) == Prev(rest, snaps[p], |rest|);
        }
      }
  }

  // ---------------------------------------------------------------------
  // What the entries along a chain are
  // ---------------------------------------------------------------------

  /** The entry classifies some ancestor's review against that ancestor's child. */
  ghost predicate FromPair(e: Entry, anc: seq<Snapshot>, child: Snapshot) {
    exists j :: 0 <= j < |anc| && e.parentCommitId == anc[j].commitId && e.childCommitId == Prev(anc, child, j).commitId
  }

  /** The entry's review is a stored review of the entry's parent commit. */
  ghost predicate FromReview(e: Entry, reviews: seq<Review>) {
    exists r :: r in reviews && r.reviewId == e.reviewId && r.commitId == e.parentCommitId
  }

  /** Every entry pairs some ancestor with its child and comes from a stored
      review of that ancestor. */
  lemma {:induction false} AlongSources(reviews: seq<Review>, classify: Classifier, anc: seq<Snapshot>, child: Snapshot)
    requires Tags(classify)
    ensures forall e :: e in Along(reviews, classify, anc, child) ==> FromPair(e, anc, child) && FromReview(e, reviews)
    decreases |anc|
  {
    if anc != [] {
      var rs := ReviewsOf(reviews, anc[0].commitId);
      var here := ClassifyAll(rs, anc[0], child, classify);
      var rest := Along(reviews, classify, anc[1..], anc[0]);
      AlongSources(reviews, classify, anc[1..], anc[0]);
      forall e | e in here + rest
        ensures FromPair(e, anc, child) && FromReview(e, reviews)
      {
        if e in here {
          var i :| 0 <= i < |here| && here[i] == e;
          assert e == classify(rs[i], anc[0], child);
          assert rs[i] in rs;
          assert Prev(anc, child, 0) == child;
          assert rs[i] in reviews && rs[i].reviewId == e.reviewId && rs[i].commitId == e.parentCommitId;
        } else {
          assert e in rest;
          assert FromPair(e, anc[1..], anc[0]);
          var j :| 0 <= j < |anc[1..]| && e.parentCommitId == anc[1..][j].commitId
                   && e.childCommitId == Prev(anc[1..], anc[0], j).commitId;
          assert Prev(anc, child, j + 1) == Prev(anc[1..], anc[0], j);
          assert anc[j + 1] == anc[1..][j];
        }
      }
    }
  }

  /** Every stored review of an ancestor has an entry, tagged with that ancestor. */
  lemma {:induction false} AlongCovers(reviews: seq<Review>, classify: Classifier, anc: seq<Snapshot>,
                                       child: Snapshot, j: nat, r: Review)
    requires Tags(classify)
    requires j < |anc| && r in reviews && r.commitId == anc[j].commitId
    ensures exists e :: e in Along(reviews, classify, anc, child)
                        && e.reviewId == r.reviewId && e.parentCommitId == anc[j].commitId
    decreases |anc|
  {
    var rs := ReviewsOf(reviews, anc[0].commitId);
    var here := ClassifyAll(rs, anc[0], child, classify);
    var rest := Along(reviews, classify, anc[1..], anc[0]);
    assert Along(reviews, classify, anc, child) == here + rest;
    if j == 0 {
      assert r in rs;
      var t :| 0 <= t < |rs| && rs[t] == r;
      assert here[t] == classify(r, anc[0], child);
      assert here[t] in here + rest;
    } else {
      assert anc[1..][j - 1] == anc[j];
      AlongCovers(reviews, classify, anc[1..], anc[0], j - 1, r);
      var e :| e in rest && e.reviewId == r.reviewId && e.parentCommitId == anc[j].commitId;
      assert e in here + rest;
    }
  }

  /** Stored reviews are told apart by their ids. */
  lemma ReviewIdsUnique(reviews: seq<Review>, x: Review, y: Review)
    requires IdsIncreasing(reviews) && x in reviews && y in reviews
    ensures x.reviewId == y.reviewId <==> x == y
  {
    var i :| 0 <= i < |reviews| && reviews[i] == x;
    var k :| 0 <= k < |reviews| && reviews[k] == y;
    assert x != y ==> i != k;
  }

  /** No review id occurs twice among the entries. */
  predicate OncePerReview(es: seq<Entry>) {
    forall i, k :: 0 <= i < k < |es| ==> es[i].reviewId != es[k].reviewId
  }

  /** Along a chain of distinct commits, no review is classified twice. */
  lemma {:induction false} AlongOnce(reviews: seq<Review>, classify: Classifier, anc: seq<Snapshot>, child: Snapshot)
    requires Tags(classify) && IdsIncreasing(reviews)
    requires forall i, k :: 0 <= i < k < |anc| ==> anc[i].commitId != anc[k].commitId
    ensures OncePerReview(Along(reviews, classify, anc, child))
    decreases |anc|
  {
    if anc != [] {
      var rs := ReviewsOf(reviews, anc[0].commitId);
      ReviewsOfIncreasing(reviews, anc[0].commitId);
      var here := ClassifyAll(rs, anc[0], child, classify);
      var rest := Along(reviews, classify, anc[1..], anc[0]);
      var es := here + rest;
      AlongOnce(reviews, classify, anc[1..], anc[0]);
      AlongSources(reviews, classify, anc[1..], anc[0]);
      forall i, k | 0 <= i < k < |es|
        ensures es[i].reviewId != es[k].reviewId
      {
        if k < |here| {
          assert es[i] == classify(rs[i], anc[0], child) && es[k] == classify(rs[k], anc[0], child);
          assert IdsIncreasing(rs);
          assert rs[i].reviewId < rs[k].reviewId;
          assert es[i].reviewId != es[k].reviewId;
        } else if i >= |here| {
          assert es[i] == rest[i - |here|] && es[k] == rest[k - |here|];
          assert OncePerReview(rest);
          assert 0 <= i - |here| < k - |here| < |rest|;
        } else {
          var e := rest[k - |here|];
          assert es[k] == e && e in rest;
          assert FromPair(e, anc[1..], anc[0]) && FromReview(e, reviews);
          var j :| 0 <= j < |anc[1..]| && e.parentCommitId == anc[1..][j].commitId
                   && e.childCommitId == Prev(anc[1..], anc[0], j).commitId;
          var r2 :| r2 in reviews && r2.reviewId == e.reviewId && r2.commitId == e.parentCommitId;
          assert anc[1..][j] == anc[j + 1];
          assert es[i] == classify(rs[i], anc[0], child);
          assert rs[i] in rs;
          assert r2.commitId != rs[i].commitId;
          ReviewIdsUnique(reviews, rs[i], r2);
          assert es[i].reviewId != es[k].reviewId;
        }
      }
    }
  }

  // ---------------------------------------------------------------------
  // What classify_commits returns
  // ---------------------------------------------------------------------

  /** On success every entry pairs a stored snapshot with the parent it names,
      the parent is never the target itself (the target's own reviews are
      not classified), and the entry comes from a stored review of the parent. */
  lemma ClassifyCommitsPairs(snaps: map<CommitId, Snapshot>, reviews: seq<Review>,
                             classify: Classifier, target: CommitId)
    requires Tags(classify) && Keyed(snaps) && ChainsStop(snaps)
    requires ClassifyCommitsSpec(snaps, reviews, classify, target).Ok?
    ensures forall e :: e in ClassifyCommitsSpec(snaps, reviews, classify, target).value ==>
              && e.childCommitId in snaps
              && Link(snaps[e.childCommitId]) == Some(e.parentCommitId)
              && e.parentCommitId in snaps
              && e.parentCommitId != target
              && FromReview(e, reviews)
  {
    var s := snaps[target];
    var n := |snaps|;
    var anc := Ancestors(snaps, s, n);
    WalkDecomposes(snaps, reviews, classify, s, n);
    AncestorsChain(snaps, s, n);
    AncestorsDistinct(snaps, s, n);
    var es := Along(reviews, classify, anc, s);
    AlongSources(reviews, classify, anc, s);
    forall e | e in es
      ensures e.childCommitId in snaps && Link(snaps[e.childCommitId]) == Some(e.parentCommitId)
      ensures e.parentCommitId in snaps && e.parentCommitId != target
    {
      assert FromPair(e, anc, s);
      var j :| 0 <= j < |anc| && e.parentCommitId == anc[j].commitId && e.childCommitId == Prev(anc, s, j).commitId;
      assert Prev(anc, s, j).commitId in snaps && snaps[Prev(anc, s, j).commitId] == Prev(anc, s, j);
      assert snaps[anc[j].commitId] != snaps[target];
    }
  }

  /** On success, with the store's increasing review ids, each review is
      classified at most once, and a stored review is classified exactly when
      it belongs to a stored ancestor of the target. */
  lemma ClassifyCommitsCovers(snaps: map<CommitId, Snapshot>, reviews: seq<Review>,
                              classify: Classifier, target: CommitId)
    requires Tags(classify) && Keyed(snaps) && ChainsStop(snaps) && IdsIncreasing(reviews)
    requires ClassifyCommitsSpec(snaps, reviews, classify, target).Ok?
    ensures var es := ClassifyCommitsSpec(snaps, reviews, classify, target).value;
            var anc := Ancestors(snaps, snaps[target], |snaps|);
            && OncePerReview(es)
            && (forall r :: r in reviews ==>
                  ((exists e :: e in es && e.reviewId == r.reviewId)
                   <==> (exists a :: a in anc && a.commitId == r.commitId)))
  {
    var s := snaps[target];
    var n := |snaps|;
    var anc := Ancestors(snaps, s, n);
    WalkDecomposes(snaps, reviews, classify, s, n);
    AncestorsChain(snaps, s, n);
    AncestorsDistinct(snaps, s, n);
    forall i, k | 0 <= i < k < |anc|
      ensures anc[i].commitId != anc[k].commitId
    {
      assert snaps[anc[i].commitId] != snaps[anc[k].commitId];
    }
    AlongOnce(reviews, classify, anc, s);
    AlongExactly(reviews, classify, anc, s);
  }

  /** Along any chain, a stored review is classified exactly when it belongs
      to one of the chain's commits. */
  lemma AlongExactly(reviews: seq<Review>, classify: Classifier, anc: seq<Snapshot>, child: Snapshot)
    requires Tags(classify) && IdsIncreasing(reviews)
    ensures forall r :: r in reviews ==>
              ((exists e :: e in Along(reviews, classify, anc, child) && e.reviewId == r.reviewId)
               <==> (exists a :: a in anc && a.commitId == r.commitId))
  {
    var es := Along(reviews, classify, anc, child);
    AlongSources(reviews, classify, anc, child);
    forall r | r in reviews
      ensures (exists e :: e in es && e.reviewId == r.reviewId) <==> (exists a :: a in anc && a.commitId == r.commitId)
    {
      if a :| a in anc && a.commitId == r.commitId {
        var j :| 0 <= j < |anc| && anc[j] == a;
        AlongCovers(reviews, classify, anc, child, j, r);
      }
      if e :| e in es && e.reviewId == r.reviewId {
        assert FromPair(e, anc, child) && FromReview(e, reviews);
        var r2 :| r2 in reviews && r2.reviewId == e.reviewId && r2.commitId == e.parentCommitId;
        var j :| 0 <= j < |anc| && e.parentCommitId == anc[j].commitId && e.childCommitId == Prev(anc, child, j).commitId;
        ReviewIdsUnique(reviews, r, r2);
        assert anc[j] in anc && anc[j].commitId == r.commitId;
      }
    }
  }

  /** On success, every classified review is a stored review of a stored
      ancestor of the target. */
  lemma ClassifiedFromAncestor(snaps: map<CommitId, Snapshot>, reviews: seq<Review>,
                               classify: Classifier, target: CommitId, e: Entry)
    requires Tags(classify) && Keyed(snaps) && ChainsStop(snaps)
    requires ClassifyCommitsSpec(snaps, reviews, classify, target).Ok?
    requires e in ClassifyCommitsSpec(snaps, reviews, classify, target).value
    ensures exists r, a :: r in reviews && a in Ancestors(snaps, snaps[target], |snaps|)
                           && r.reviewId == e.reviewId && a.commitId == r.commitId
  {
    var s := snaps[target];
    var anc := Ancestors(snaps, s, |snaps|);
    WalkDecomposes(snaps, reviews, classify, s, |snaps|);
    AlongSources(reviews, classify, anc, s);
    assert FromPair(e, anc, s) && FromReview(e, reviews);
    var r :| r in reviews && r.reviewId == e.reviewId && r.commitId == e.parentCommitId;
    var j :| 0 <= j < |anc| && e.parentCommitId == anc[j].commitId && e.childCommitId == Prev(anc, s, j).commitId;
    assert anc[j] in anc;
  }

  /** On success, every stored review of a stored ancestor of the target is
      classified. */
  lemma AncestorReviewClassified(snaps: map<CommitId, Snapshot>, reviews: seq<Review>,
                                 classify: Classifier, target: CommitId, r: Review, a: Snapshot)
    requires Tags(classify) && Keyed(snaps) && ChainsStop(snaps)
    requires ClassifyCommitsSpec(snaps, reviews, classify, target).Ok?
    requires r in reviews && a in Ancestors(snaps, snaps[target], |snaps|) && a.commitId == r.commitId
    ensures exists e :: e in ClassifyCommitsSpec(snaps, reviews, classify, target).value && e.reviewId == r.reviewId
  {
    var s := snaps[target];
    var anc := Ancestors(snaps, s, |snaps|);
    WalkDecomposes(snaps, reviews, classify, s, |snaps|);
    var j :| 0 <= j < |anc| && anc[j] == a;
    AlongCovers(reviews, classify, anc, s, j, r);
  }

  /** A `ParentNotFound` failure names the parent id of the last stored
      snapshot the walk reached, and that id is not stored. */
  lemma ClassifyCommitsMissingParent(snaps: map<CommitId, Snapshot>, reviews: seq<Review>,
                                     classify: Classifier, target: CommitId)
    requires Keyed(snaps) && ChainsStop(snaps)
    requires ClassifyCommitsSpec(snaps, reviews, classify, target).Err?
    requires ClassifyCommitsSpec(snaps, reviews, classify, target).error.ParentNotFound?
    ensures var p := ClassifyCommitsSpec(snaps, reviews, classify, target).error.commitId;
            var anc := Ancestors(snaps, snaps[target], |snaps|);
            && target in snaps && p !in snaps
            && Link(Prev(anc, snaps[target], |anc|)) == Some(p)
  {
    WalkDecomposes(snaps, reviews, classify, snaps[target], |snaps|);
    AncestorsChain(snaps, snaps[target], |snaps|);
  }

  // ---------------------------------------------------------------------
  // The loop itself
  // ---------------------------------------------------------------------

  /** Prefixes already collected entries to the rest of a walk. */
  function Then(acc: seq<Entry>, r: Result<seq<Entry>, WalkError>): Result<seq<Entry>, WalkError> {
    match r
    case Ok(rest) => Ok(acc + rest)
    case Err(e) => Err(e)
  }

  /** One turn of the outer loop: the entries for the parent's reviews are
      appended and the walk continues from the parent. */
  lemma WalkStep(snaps: map<CommitId, Snapshot>, reviews: seq<Review>, classify: Classifier,
                 current: Snapshot, n: nat, acc: seq<Entry>)
    requires StopsWithin(snaps, Link(current), n)
    requires Link(current).Some? && Link(current).value in snaps
    ensures var parent := snaps[Link(current).value];
            && StopsWithin(snaps, Link(parent), n - 1)
            && Then(acc, WalkFrom(snaps, reviews, classify, current, n))
               == Then(acc + ClassifyAll(ReviewsOf(reviews, parent.commitId), parent, current, classify),
                       WalkFrom(snaps, reviews, classify, parent, n - 1))
  {
    var parent := snaps[Link(current).value];
    var here := ClassifyAll(ReviewsOf(reviews, parent.commitId), parent, current, classify);
    var rest := WalkFrom(snaps, reviews, classify, parent, n - 1);
    if rest.Ok? {
      assert acc + (here + rest.value) == (acc + here) + rest.value;
    }
  }

  /** The inner `for review in parent_reviews` loop of `classify_commits`. */
  method ClassifyEach(rs: seq<Review>, parent: Snapshot, child: Snapshot, classify: Classifier)
    returns (here: seq<Entry>)
    ensures here == ClassifyAll(rs, parent, child, classify)
  {
    here := [];
    for i := 0 to |rs|
      invariant here == ClassifyAll(rs[..i], parent, child, classify)
    {
      assert rs[..i + 1][..i] == rs[..i];
      here := here + [classify(rs[i], parent, child)];
    }
    assert rs[..|rs|] == rs;
  }

  /** `classify_commits`, step by step as the source walks the chain; each
      review goes through `classify`, which for the source is
      `ClassifierFor(complete, decode)`. */
  method ClassifyCommits(db: Db, target: CommitId, classify: Classifier)
    returns (r: Result<seq<Entry>, WalkError>)
    requires db.Valid()
    ensures r == ClassifyCommitsSpec(db.snapshots, db.reviews, classify, target)
  {
    var found := db.GetSnapshotByCommit(target);
    if found.None? {
      return Err(CommitNotFound(target));
    }
    var current := found.value;
    var all: seq<Entry> := [];
    ghost var fuel: nat := |db.snapshots|;
    assert StopsWithin(db.snapshots, Link(db.snapshots[target]), fuel);
    match WalkFrom(db.snapshots, db.reviews, classify, current, fuel) {
      case Ok(rest) => assert [] + rest == rest;
      case Err(_) =>
    }
    while Link(current).Some?
      invariant StopsWithin(db.snapshots, Link(current), fuel)
      invariant Then(all, WalkFrom(db.snapshots, db.reviews, classify, current, fuel))
                == ClassifyCommitsSpec(db.snapshots, db.reviews, classify, target)
      decreases fuel
    {
      var parentId := Link(current).value;
      var parentFound := db.GetSnapshotByCommit(parentId);
      if parentFound.None? {
        return Err(ParentNotFound(parentId));
      }
      var parent := parentFound.value;
      var parentReviews := db.GetReviewsForCommit(parent.commitId);
      WalkStep(db.snapshots, db.reviews, classify, current, fuel, all);
      if |parentReviews| == 0 {
        assert all + ClassifyAll(parentReviews, parent, current, classify) == all;
        current, fuel := parent, fuel - 1;
        continue;
      }
      var here := ClassifyEach(parentReviews, parent, current, classify);
      all := all + here;
      current, fuel := parent, fuel - 1;
    }
    assert all + [] == all;
    return Ok(all);
  }
}
