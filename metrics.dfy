/** agents/prod_metrics/generate_metrics.py: the fold of `calculate_metrics`
    over (classification, developer, date) records into counter dicts, and the
    developer and team metrics derived from those counters. */
module Metrics {
  import opened Wrappers
  import opened Text
  import opened Constants
  import opened MapSums
  import opened Counter

  const RECURRING_ISSUE_TOP_K: nat := 5
  const OTHER: string := "Other"
  const PARSING_ERROR: string := "ParsingError"

  /** `snapshot_date.date()`: an opaque day key. */
  type Day = int

  /** One row of `get_all_classifications_with_snapshot_info`: the stored
      label, category and recurring issue (the last two nullable), the
      snapshot's developer, and the snapshot's day when it has a date. */
  datatype Record = Record(
    classification: string,
    category: Option<string>,
    recurringIssue: Option<string>,
    developer: string,
    day: Option<Day>)

  /** The `{ACCEPTED: n, REJECTED: m}` dict of a category. */
  datatype CatCount = CatCount(accepted: nat, rejected: nat)

  /** The counters of `calculate_metrics`, developer level then team level. */
  datatype Tally = Tally(
    handledByDevDay: map<string, map<Day, nat>>,
    devTotals: map<string, nat>,
    acceptedOrModified: map<string, nat>,
    rejected: map<string, nat>,
    categoryCounts: map<string, map<string, CatCount>>,
    rawIssuesByDev: map<string, seq<string>>,
    handledByTeamDay: map<Day, nat>,
    teamTotal: nat,
    teamAcceptedOrModified: nat,
    teamCategoryCounts: map<string, CatCount>,
    rawIssuesTeam: seq<string>)

  const EMPTY_TALLY := Tally(map[], map[], map[], map[], map[], map[], map[], 0, 0, map[], [])

  // ---------------------------------------------------------------------
  // defaultdict reads and increments
  // ---------------------------------------------------------------------

  /** `m[k] += 1` on a `defaultdict(int)`. */
  function Bump<K(!new)>(m: map<K, nat>, k: K): (r: map<K, nat>)
    ensures r.Keys == m.Keys + {k}
    ensures forall j :: Get(r, j) == Get(m, j) + (if j == k then 1 else 0)
  {
    m[k := Get(m, k) + 1]
  }

  function Days(m: map<string, map<Day, nat>>, d: string): map<Day, nat> {
    if d in m then m[d] else map[]
  }

  function Cats(m: map<string, map<string, CatCount>>, d: string): map<string, CatCount> {
    if d in m then m[d] else map[]
  }

  function Cat(m: map<string, CatCount>, c: string): CatCount {
    if c in m then m[c] else CatCount(0, 0)
  }

  function IssuesOf(m: map<string, seq<string>>, d: string): seq<string> {
    if d in m then m[d] else []
  }

  function CountAccepted(m: map<string, CatCount>, c: string): (r: map<string, CatCount>)
    ensures r.Keys == m.Keys + {c}
    ensures forall j :: Cat(r, j) == if j == c then CatCount(Cat(m, c).accepted + 1, Cat(m, c).rejected) else Cat(m, j)
  {
    m[c := Cat(m, c).(accepted := Cat(m, c).accepted + 1)]
  }

  function CountRejected(m: map<string, CatCount>, c: string): (r: map<string, CatCount>)
    ensures r.Keys == m.Keys + {c}
    ensures forall j :: Cat(r, j) == if j == c then CatCount(Cat(m, c).accepted, Cat(m, c).rejected + 1) else Cat(m, j)
  {
    m[c := Cat(m, c).(rejected := Cat(m, c).rejected + 1)]
  }

  // ---------------------------------------------------------------------
  // One iteration of the loop
  // ---------------------------------------------------------------------

  /** Accepted and modified both count as handled. */
  predicate IsHandled(l: string) {
    l == ACCEPTED || l == MODIFIED
  }

  /** `classification.category or "Other"`. */
  function CategoryOf(r: Record): string {
    if r.category.None? || r.category.value == "" then OTHER else r.category.value
  }

  /** `classification.recurring_issue and classification.recurring_issue != "Other"`. */
  predicate Collected(r: Record) {
    r.recurringIssue.Some? && r.recurringIssue.value != "" && r.recurringIssue.value != OTHER
  }

  /** `handled_by_dev_day[dev_name][totals_day] += 1` for a dated handled record. */
  function DevDayStep(m: map<string, map<Day, nat>>, r: Record): (res: map<string, map<Day, nat>>)
    ensures forall d :: Days(res, d) ==
              if d == r.developer && IsHandled(r.classification) && r.day.Some? then Bump(Days(m, d), r.day.value)
              else Days(m, d)
    ensures forall d :: d in res <==> d in m || (d == r.developer && IsHandled(r.classification) && r.day.Some?)
  {
    if IsHandled(r.classification) && r.day.Some? then m[r.developer := Bump(Days(m, r.developer), r.day.value)]
    else m
  }

  /** `handled_by_team_day[totals_day] += 1` for a dated handled record. */
  function TeamDayStep(m: map<Day, nat>, r: Record): map<Day, nat> {
    if IsHandled(r.classification) && r.day.Some? then Bump(m, r.day.value) else m
  }

  /** `accepted_or_modified[dev_name] += 1` for a handled record. */
  function HandledStep(m: map<string, nat>, r: Record): (res: map<string, nat>)
    ensures forall d :: Get(res, d) == Get(m, d) + (if d == r.developer && IsHandled(r.classification) then 1 else 0)
  {
    if IsHandled(r.classification) then Bump(m, r.developer) else m
  }

  /** `rejected[dev_name] += 1` for a rejected record. */
  function RejectedStep(m: map<string, nat>, r: Record): (res: map<string, nat>)
    ensures forall d :: Get(res, d) == Get(m, d) + (if d == r.developer && r.classification == REJECTED then 1 else 0)
  {
    if !IsHandled(r.classification) && r.classification == REJECTED then Bump(m, r.developer) else m
  }

  /** `category_counts[dev_name][category][...] += 1`; modified records count
      under the ACCEPTED slot. */
  function CategoryStep(m: map<string, map<string, CatCount>>, r: Record): (res: map<string, map<string, CatCount>>)
    ensures forall d :: Cats(res, d) ==
              if d != r.developer then Cats(m, d)
              else if IsHandled(r.classification) then CountAccepted(Cats(m, d), CategoryOf(r))
              else if r.classification == REJECTED then CountRejected(Cats(m, d), CategoryOf(r))
              else Cats(m, d)
  {
    if IsHandled(r.classification) then m[r.developer := CountAccepted(Cats(m, r.developer), CategoryOf(r))]
    else if r.classification == REJECTED then m[r.developer := CountRejected(Cats(m, r.developer), CategoryOf(r))]
    else m
  }

  /** `team_category_counts[category][...] += 1`. */
  function TeamCategoryStep(m: map<string, CatCount>, r: Record): map<string, CatCount> {
    if IsHandled(r.classification) then CountAccepted(m, CategoryOf(r))
    else if r.classification == REJECTED then CountRejected(m, CategoryOf(r))
    else m
  }

  /** `raw_issues_by_dev[dev_name].append(...)` for a collected issue. */
  function IssuesByDevStep(m: map<string, seq<string>>, r: Record): (res: map<string, seq<string>>)
    ensures forall d :: IssuesOf(res, d) == IssuesOf(m, d) + (if d == r.developer then IssueOf(r) else [])
    ensures forall d :: d in res <==> d in m || (d == r.developer && Collected(r))
  {
    if Collected(r) then m[r.developer := IssuesOf(m, r.developer) + IssueOf(r)] else m
  }

  /** The issue a record contributes to `raw_issues_team`, if any. */
  function IssueOf(r: Record): seq<string> {
    if Collected(r) then [r.recurringIssue.value] else []
  }

  /** The loop body for one record, counter by counter. */
  function Step(t: Tally, r: Record): Tally {
    Tally(
      DevDayStep(t.handledByDevDay, r),
      Bump(t.devTotals, r.developer),
      HandledStep(t.acceptedOrModified, r),
      RejectedStep(t.rejected, r),
      CategoryStep(t.categoryCounts, r),
      IssuesByDevStep(t.rawIssuesByDev, r),
      TeamDayStep(t.handledByTeamDay, r),
      t.teamTotal + 1,
      t.teamAcceptedOrModified + (if IsHandled(r.classification) then 1 else 0),
      TeamCategoryStep(t.teamCategoryCounts, r),
      t.rawIssuesTeam + IssueOf(r))
  }

  /** Equality with `Step` holds counter by counter. */
  lemma StepFields(t: Tally, r: Record)
    ensures Step(t, r).handledByDevDay == DevDayStep(t.handledByDevDay, r)
    ensures Step(t, r).devTotals == Bump(t.devTotals, r.developer)
    ensures Step(t, r).acceptedOrModified == HandledStep(t.acceptedOrModified, r)
    ensures Step(t, r).rejected == RejectedStep(t.rejected, r)
    ensures Step(t, r).categoryCounts == CategoryStep(t.categoryCounts, r)
    ensures Step(t, r).rawIssuesByDev == IssuesByDevStep(t.rawIssuesByDev, r)
    ensures Step(t, r).handledByTeamDay == TeamDayStep(t.handledByTeamDay, r)
    ensures Step(t, r).teamTotal == t.teamTotal + 1
    ensures Step(t, r).teamAcceptedOrModified == t.teamAcceptedOrModified + (if IsHandled(r.classification) then 1 else 0)
    ensures Step(t, r).teamCategoryCounts == TeamCategoryStep(t.teamCategoryCounts, r)
    ensures Step(t, r).rawIssuesTeam == t.rawIssuesTeam + IssueOf(r)
  {
  }

  // Each counter after the loop over `records`, one record at a time.

  function DevDaysAfter(records: seq<Record>): map<string, map<Day, nat>> {
    if records == [] then map[] else DevDayStep(DevDaysAfter(records[..|records| - 1]), records[|records| - 1])
  }

  function DevTotalsAfter(records: seq<Record>): map<string, nat> {
    if records == [] then map[] else Bump(DevTotalsAfter(records[..|records| - 1]), records[|records| - 1].developer)
  }

  function HandledAfter(records: seq<Record>): map<string, nat> {
    if records == [] then map[] else HandledStep(HandledAfter(records[..|records| - 1]), records[|records| - 1])
  }

  function RejectedAfter(records: seq<Record>): map<string, nat> {
    if records == [] then map[] else RejectedStep(RejectedAfter(records[..|records| - 1]), records[|records| - 1])
  }

  function CategoriesAfter(records: seq<Record>): map<string, map<string, CatCount>> {
    if records == [] then map[] else CategoryStep(CategoriesAfter(records[..|records| - 1]), records[|records| - 1])
  }

  function IssuesByDevAfter(records: seq<Record>): map<string, seq<string>> {
    if records == [] then map[] else IssuesByDevStep(IssuesByDevAfter(records[..|records| - 1]), records[|records| - 1])
  }

  function TeamDaysAfter(records: seq<Record>): map<Day, nat> {
    if records == [] then map[] else TeamDayStep(TeamDaysAfter(records[..|records| - 1]), records[|records| - 1])
  }

  function TeamTotalAfter(records: seq<Record>): nat {
    if records == [] then 0 else TeamTotalAfter(records[..|records| - 1]) + 1
  }

  function TeamHandledAfter(records: seq<Record>): nat {
    if records == [] then 0
    else TeamHandledAfter(records[..|records| - 1]) + (if IsHandled(records[|records| - 1].classification) then 1 else 0)
  }

  function TeamCategoriesAfter(records: seq<Record>): map<string, CatCount> {
    if records == [] then map[]
    else TeamCategoryStep(TeamCategoriesAfter(records[..|records| - 1]), records[|records| - 1])
  }

  function TeamIssuesAfter(records: seq<Record>): seq<string> {
    if records == [] then [] else TeamIssuesAfter(records[..|records| - 1]) + IssueOf(records[|records| - 1])
  }

  /** The counters after the loop over `records`. */
  function TallyOf(records: seq<Record>): Tally {
    Tally(DevDaysAfter(records), DevTotalsAfter(records), HandledAfter(records), RejectedAfter(records),
          CategoriesAfter(records), IssuesByDevAfter(records), TeamDaysAfter(records), TeamTotalAfter(records),
          TeamHandledAfter(records), TeamCategoriesAfter(records), TeamIssuesAfter(records))
  }

  /** A label other than accepted, modified or rejected (such as "unknown")
      moves only the two totals and the recurring-issue lists. */
  lemma StepOtherLabel(t: Tally, r: Record)
    requires !IsHandled(r.classification) && r.classification != REJECTED
    ensures Step(t, r).(devTotals := t.devTotals, teamTotal := t.teamTotal,
                        rawIssuesByDev := t.rawIssuesByDev, rawIssuesTeam := t.rawIssuesTeam) == t
    ensures Step(t, r).devTotals == Bump(t.devTotals, r.developer) && Step(t, r).teamTotal == t.teamTotal + 1
  {
  }

  /** The counters after one more record are one step on from the previous ones. */
  lemma TallyOfSnoc(records: seq<Record>, i: nat)
    requires i < |records|
    ensures TallyOf(records[..i + 1]) == Step(TallyOf(records[..i]), records[i])
  {
    assert records[..i + 1][..i] == records[..i];
  }

  /** The body of the `for` loop of `calculate_metrics`: the counters
      updated in place for one record. */
  method AddRecord(t: Tally, r: Record) returns (u: Tally)
    ensures u == Step(t, r)
  {
    u := t.(devTotals := Bump(t.devTotals, r.developer));
    u := CountClassification(u, r);
    u := CollectIssue(u, r);
    u := u.(teamTotal := u.teamTotal + 1);
    StepFields(t, r);
  }

  /** The `if`/`elif` on the label inside the loop: the handled counters for
      accepted and modified records, the rejected ones for rejected records,
      nothing for any other label. */
  method CountClassification(t: Tally, r: Record) returns (u: Tally)
    ensures u == t.(handledByDevDay := DevDayStep(t.handledByDevDay, r),
                    acceptedOrModified := HandledStep(t.acceptedOrModified, r),
                    rejected := RejectedStep(t.rejected, r),
                    categoryCounts := CategoryStep(t.categoryCounts, r),
                    handledByTeamDay := TeamDayStep(t.handledByTeamDay, r),
                    teamAcceptedOrModified := t.teamAcceptedOrModified + (if IsHandled(r.classification) then 1 else 0),
                    teamCategoryCounts := TeamCategoryStep(t.teamCategoryCounts, r))
  {
    if IsHandled(r.classification) {
      u := CountHandled(t, r);
    } else if r.classification == REJECTED {
      u := CountRejectedRecord(t, r);
    } else {
      u := t;
    }
  }

  /** The accepted-or-modified branch: the developer's and the team's
      handled counters, by day when the snapshot is dated. */
  method CountHandled(t: Tally, r: Record) returns (u: Tally)
    requires IsHandled(r.classification)
    ensures u == t.(handledByDevDay := DevDayStep(t.handledByDevDay, r),
                    acceptedOrModified := Bump(t.acceptedOrModified, r.developer),
                    categoryCounts := t.categoryCounts[r.developer := CountAccepted(Cats(t.categoryCounts, r.developer), CategoryOf(r))],
                    handledByTeamDay := TeamDayStep(t.handledByTeamDay, r),
                    teamAcceptedOrModified := t.teamAcceptedOrModified + 1,
                    teamCategoryCounts := CountAccepted(t.teamCategoryCounts, CategoryOf(r)))
  {
    var dev, category := r.developer, CategoryOf(r);
    u := t;
    if r.day.Some? {
      u := u.(handledByDevDay := u.handledByDevDay[dev := Bump(Days(u.handledByDevDay, dev), r.day.value)],
              handledByTeamDay := Bump(u.handledByTeamDay, r.day.value));
    }
    u := u.(acceptedOrModified := Bump(u.acceptedOrModified, dev),
            teamAcceptedOrModified := u.teamAcceptedOrModified + 1,
            categoryCounts := u.categoryCounts[dev := CountAccepted(Cats(u.categoryCounts, dev), category)],
            teamCategoryCounts := CountAccepted(u.teamCategoryCounts, category));
  }

  /** The rejected branch: the developer's rejected counter and the
      REJECTED slots of the category counters. */
  method CountRejectedRecord(t: Tally, r: Record) returns (u: Tally)
    ensures u == t.(rejected := Bump(t.rejected, r.developer),
                    categoryCounts := t.categoryCounts[r.developer := CountRejected(Cats(t.categoryCounts, r.developer), CategoryOf(r))],
                    teamCategoryCounts := CountRejected(t.teamCategoryCounts, CategoryOf(r)))
  {
    var dev, category := r.developer, CategoryOf(r);
    u := t.(rejected := Bump(t.rejected, dev),
            categoryCounts := t.categoryCounts[dev := CountRejected(Cats(t.categoryCounts, dev), category)],
            teamCategoryCounts := CountRejected(t.teamCategoryCounts, category));
  }

  /** The recurring-issue `if` inside the loop: a collected issue is appended
      to its developer's list and to the team list. */
  method CollectIssue(t: Tally, r: Record) returns (u: Tally)
    ensures u == t.(rawIssuesByDev := IssuesByDevStep(t.rawIssuesByDev, r),
                    rawIssuesTeam := t.rawIssuesTeam + IssueOf(r))
  {
    u := t;
    if Collected(r) {
      u := u.(rawIssuesByDev := u.rawIssuesByDev[r.developer := IssuesOf(u.rawIssuesByDev, r.developer) + [r.recurringIssue.value]],
              rawIssuesTeam := u.rawIssuesTeam + [r.recurringIssue.value]);
    }
  }

  /** The `for` loop of `calculate_metrics`. */
  method Aggregate(records: seq<Record>) returns (t: Tally)
    ensures t == TallyOf(records)
  {
    t := EMPTY_TALLY;
    for i := 0 to |records|
      invariant t == TallyOf(records[..i])
    {
      TallyOfSnoc(records, i);
      t := AddRecord(t, records[i]);
    }
    assert records[..|records|] == records;
  }

  // ---------------------------------------------------------------------
  // Reference definitions over the records
  // ---------------------------------------------------------------------

  /** How many records satisfy `p`. */
  function Count(records: seq<Record>, p: Record -> bool): (n: nat)
    ensures n <= |records|
    decreases |records|
  {
    if records == [] then 0
    else Count(records[..|records| - 1], p) + (if p(records[|records| - 1]) then 1 else 0)
  }

  /** The collected recurring issues of the records satisfying `p`, in
      record order, duplicates kept. */
  function Issues(records: seq<Record>, p: Record -> bool): seq<string>
    decreases |records|
  {
    if records == [] then []
    else
      var last := records[|records| - 1];
      Issues(records[..|records| - 1], p) + (if p(last) && Collected(last) then [last.recurringIssue.value] else [])
  }

  /** Every value of a counter dict is at least 1. */
  predicate Positive<K>(m: map<K, nat>) {
    forall k :: k in m ==> m[k] >= 1
  }

  /** The total per developer is that developer's number of records, and
      `team_total` is the number of records and the sum of the totals. */
  lemma TallyTotals(records: seq<Record>)
    ensures TallyOf(records).teamTotal == |records|
    ensures forall d :: Get(TallyOf(records).devTotals, d) == Count(records, (r: Record) => r.developer == d)
    ensures Positive(TallyOf(records).devTotals)
    ensures SumValues(TallyOf(records).devTotals) == |records|
  {
    TeamTotalCounts(records);
    DevTotalsCount(records);
    DevTotalsSum(records);
  }

  lemma {:induction false} TeamTotalCounts(records: seq<Record>)
    ensures TeamTotalAfter(records) == |records|
    decreases |records|
  {
    if records != [] {
      TeamTotalCounts(records[..|records| - 1]);
    }
  }

  lemma {:induction false} DevTotalsCount(records: seq<Record>)
    ensures forall d :: Get(DevTotalsAfter(records), d) == Count(records, (r: Record) => r.developer == d)
    decreases |records|
  {
    if records != [] {
      DevTotalsCount(records[..|records| - 1]);
    }
  }

  lemma {:induction false} DevTotalsSum(records: seq<Record>)
    ensures Positive(DevTotalsAfter(records))
    ensures SumValues(DevTotalsAfter(records)) == |records|
    decreases |records|
  {
    if records != [] {
      var init, last := records[..|records| - 1], records[|records| - 1];
      DevTotalsSum(init);
      BumpSum(DevTotalsAfter(init), last.developer);
    }
  }

  /** A bump adds one to the sum and keeps every value positive. */
  lemma BumpSum<K(!new)>(m: map<K, nat>, k: K)
    ensures SumValues(Bump(m, k)) == SumValues(m) + 1
    ensures Positive(m) ==> Positive(Bump(m, k))
  {
    SumValuesUpdate(m, k, Get(m, k) + 1);
  }

  /** Accepted-or-modified and rejected per developer count that
      developer's records with those labels; the team count of handled
      records likewise; and a developer's handled plus rejected never
      exceed the developer's total. */
  lemma TallyLabels(records: seq<Record>)
    ensures forall d :: Get(TallyOf(records).acceptedOrModified, d)
                          == Count(records, (r: Record) => r.developer == d && IsHandled(r.classification))
    ensures forall d :: Get(TallyOf(records).rejected, d)
                          == Count(records, (r: Record) => r.developer == d && r.classification == REJECTED)
    ensures TallyOf(records).teamAcceptedOrModified == Count(records, (r: Record) => IsHandled(r.classification))
    ensures forall d :: Get(TallyOf(records).acceptedOrModified, d) + Get(TallyOf(records).rejected, d)
                          <= Get(TallyOf(records).devTotals, d)
  {
    HandledCount(records);
    RejectedCount(records);
    TeamHandledCount(records);
    LabelsWithinTotals(records);
  }

  lemma {:induction false} HandledCount(records: seq<Record>)
    ensures forall d :: Get(HandledAfter(records), d)
                          == Count(records, (r: Record) => r.developer == d && IsHandled(r.classification))
    decreases |records|
  {
    if records != [] {
      HandledCount(records[..|records| - 1]);
    }
  }

  lemma {:induction false} RejectedCount(records: seq<Record>)
    ensures forall d :: Get(RejectedAfter(records), d)
                          == Count(records, (r: Record) => r.developer == d && r.classification == REJECTED)
    decreases |records|
  {
    if records != [] {
      RejectedCount(records[..|records| - 1]);
    }
  }

  lemma {:induction false} TeamHandledCount(records: seq<Record>)
    ensures TeamHandledAfter(records) == Count(records, (r: Record) => IsHandled(r.classification))
    decreases |records|
  {
    if records != [] {
      TeamHandledCount(records[..|records| - 1]);
    }
  }

  lemma {:induction false} LabelsWithinTotals(records: seq<Record>)
    ensures forall d :: Get(HandledAfter(records), d) + Get(RejectedAfter(records), d) <= Get(DevTotalsAfter(records), d)
    decreases |records|
  {
    if records != [] {
      LabelsWithinTotals(records[..|records| - 1]);
    }
  }

  /** Per developer and per category, the ACCEPTED slot counts handled
      (accepted or modified) records and the REJECTED slot rejected ones;
      the team dict counts the same over all developers. */
  lemma TallyCategories(records: seq<Record>)
    ensures forall d, c :: Cat(Cats(TallyOf(records).categoryCounts, d), c) == CatCount(
              Count(records, (r: Record) => r.developer == d && CategoryOf(r) == c && IsHandled(r.classification)),
              Count(records, (r: Record) => r.developer == d && CategoryOf(r) == c && r.classification == REJECTED))
    ensures forall c :: Cat(TallyOf(records).teamCategoryCounts, c) == CatCount(
              Count(records, (r: Record) => CategoryOf(r) == c && IsHandled(r.classification)),
              Count(records, (r: Record) => CategoryOf(r) == c && r.classification == REJECTED))
  {
    DevCategoriesCount(records);
    TeamCategoriesCount(records);
  }

  lemma {:induction false} DevCategoriesCount(records: seq<Record>)
    ensures forall d, c :: Cat(Cats(CategoriesAfter(records), d), c) == CatCount(
              Count(records, (r: Record) => r.developer == d && CategoryOf(r) == c && IsHandled(r.classification)),
              Count(records, (r: Record) => r.developer == d && CategoryOf(r) == c && r.classification == REJECTED))
    decreases |records|
  {
    if records != [] {
      var init, last := records[..|records| - 1], records[|records| - 1];
      DevCategoriesCount(init);
      forall d, c {
        CategoryCellStep(CategoriesAfter(init), last, d, c);
      }
    }
  }

  lemma {:induction false} TeamCategoriesCount(records: seq<Record>)
    ensures forall c :: Cat(TeamCategoriesAfter(records), c) == CatCount(
              Count(records, (r: Record) => CategoryOf(r) == c && IsHandled(r.classification)),
              Count(records, (r: Record) => CategoryOf(r) == c && r.classification == REJECTED))
    decreases |records|
  {
    if records != [] {
      var init, last := records[..|records| - 1], records[|records| - 1];
      TeamCategoriesCount(init);
      forall c {
        TeamCategoryCellStep(TeamCategoriesAfter(init), last, c);
      }
    }
  }

  /** One record adds one to its own developer's and category's slot for its
      label, and changes no other cell. */
  lemma CategoryCellStep(m: map<string, map<string, CatCount>>, r: Record, d: string, c: string)
    ensures Cat(Cats(CategoryStep(m, r), d), c) == CatCount(
              Cat(Cats(m, d), c).accepted + (if r.developer == d && CategoryOf(r) == c && IsHandled(r.classification) then 1 else 0),
              Cat(Cats(m, d), c).rejected + (if r.developer == d && CategoryOf(r) == c && r.classification == REJECTED then 1 else 0))
  {
    if d != r.developer || (!IsHandled(r.classification) && r.classification != REJECTED) {
      assert Cats(CategoryStep(m, r), d) == Cats(m, d);
    }
  }

  lemma TeamCategoryCellStep(m: map<string, CatCount>, r: Record, c: string)
    ensures Cat(TeamCategoryStep(m, r), c) == CatCount(
              Cat(m, c).accepted + (if CategoryOf(r) == c && IsHandled(r.classification) then 1 else 0),
              Cat(m, c).rejected + (if CategoryOf(r) == c && r.classification == REJECTED then 1 else 0))
  {
  }

  /** A category dict summed per category, as the comprehensions of the
      developer and team metrics compute it. */
  function PerCategory(m: map<string, CatCount>): (r: map<string, nat>)
    ensures r.Keys == m.Keys
    ensures forall c :: c in m ==> r[c] == m[c].accepted + m[c].rejected
  {
    map c | c in m :: m[c].accepted + m[c].rejected
  }

  /** Replacing one category's counts changes the sum over categories by the
      difference. */
  lemma PerCategoryUpdate(m: map<string, CatCount>, c: string, x: CatCount)
    ensures SumValues(PerCategory(m[c := x])) + (Cat(m, c).accepted + Cat(m, c).rejected)
              == SumValues(PerCategory(m)) + (x.accepted + x.rejected)
  {
    PerCategoryAt(m, c, x);
    SumValuesUpdate(PerCategory(m), c, x.accepted + x.rejected);
  }

  lemma PerCategoryAt(m: map<string, CatCount>, c: string, x: CatCount)
    ensures PerCategory(m[c := x]) == PerCategory(m)[c := x.accepted + x.rejected]
    ensures Get(PerCategory(m), c) == Cat(m, c).accepted + Cat(m, c).rejected
  {
    var p := PerCategory(m);
    assert PerCategory(m[c := x]) == p[c := x.accepted + x.rejected];
  }

  /** Recording one more accepted or rejected suggestion under a category adds
      one to the sum over categories. */
  lemma PerCategoryBump(m: map<string, CatCount>, c: string)
    ensures SumValues(PerCategory(CountAccepted(m, c))) == SumValues(PerCategory(m)) + 1
    ensures SumValues(PerCategory(CountRejected(m, c))) == SumValues(PerCategory(m)) + 1
  {
    PerCategoryUpdate(m, c, Cat(m, c).(accepted := Cat(m, c).accepted + 1));
    PerCategoryUpdate(m, c, Cat(m, c).(rejected := Cat(m, c).rejected + 1));
  }

  /** One record keeps "summed over categories, a developer's counts are
      their handled plus rejected records". */
  lemma CategorySumsStep(m: map<string, map<string, CatCount>>, h: map<string, nat>, rj: map<string, nat>, r: Record)
    requires forall d :: SumValues(PerCategory(Cats(m, d))) == Get(h, d) + Get(rj, d)
    ensures forall d :: SumValues(PerCategory(Cats(CategoryStep(m, r), d)))
                          == Get(HandledStep(h, r), d) + Get(RejectedStep(rj, r), d)
  {
    forall d
      ensures SumValues(PerCategory(Cats(CategoryStep(m, r), d)))
              == Get(HandledStep(h, r), d) + Get(RejectedStep(rj, r), d)
    {
      CategorySumStepAt(Cats(m, d), Cats(CategoryStep(m, r), d), d, r);
    }
  }

  /** One developer's slice of `CategorySumsStep`: the record adds one to
      their sum over categories exactly when it is theirs and handled or
      rejected. */
  lemma CategorySumStepAt(before: map<string, CatCount>, after: map<string, CatCount>, d: string, r: Record)
    requires after == if d != r.developer then before
                      else if IsHandled(r.classification) then CountAccepted(before, CategoryOf(r))
                      else if r.classification == REJECTED then CountRejected(before, CategoryOf(r))
                      else before
    ensures SumValues(PerCategory(after)) == SumValues(PerCategory(before))
              + (if d == r.developer && (IsHandled(r.classification) || r.classification == REJECTED) then 1 else 0)
  {
    PerCategoryBump(before, CategoryOf(r));
  }

  /** One record adds one to the team's sum over categories exactly when it
      is handled or rejected. */
  lemma TeamCategorySumStep(m: map<string, CatCount>, r: Record)
    ensures SumValues(PerCategory(TeamCategoryStep(m, r)))
            == SumValues(PerCategory(m)) + (if IsHandled(r.classification) || r.classification == REJECTED then 1 else 0)
  {
    PerCategoryBump(m, CategoryOf(r));
  }

  /** Summed over categories, a developer's counts are that developer's
      handled plus rejected suggestions; the team's likewise. */
  lemma TallyCategorySums(records: seq<Record>)
    ensures forall d :: SumValues(PerCategory(Cats(TallyOf(records).categoryCounts, d)))
                          == Get(TallyOf(records).acceptedOrModified, d) + Get(TallyOf(records).rejected, d)
    ensures SumValues(PerCategory(TallyOf(records).teamCategoryCounts))
              == Count(records, (r: Record) => IsHandled(r.classification) || r.classification == REJECTED)
  {
    DevCategorySums(records);
    TeamCategorySums(records);
  }

  lemma {:induction false} DevCategorySums(records: seq<Record>)
    ensures forall d :: SumValues(PerCategory(Cats(CategoriesAfter(records), d)))
                          == Get(HandledAfter(records), d) + Get(RejectedAfter(records), d)
    decreases |records|
  {
    if records != [] {
      var init, last := records[..|records| - 1], records[|records| - 1];
      DevCategorySums(init);
      CategorySumsStep(CategoriesAfter(init), HandledAfter(init), RejectedAfter(init), last);
    }
  }

  lemma {:induction false} TeamCategorySums(records: seq<Record>)
    ensures SumValues(PerCategory(TeamCategoriesAfter(records)))
              == Count(records, (r: Record) => IsHandled(r.classification) || r.classification == REJECTED)
    decreases |records|
  {
    if records != [] {
      var init, last := records[..|records| - 1], records[|records| - 1];
      TeamCategorySums(init);
      TeamCategorySumStep(TeamCategoriesAfter(init), last);
    }
  }

  /** The lengths of the per-developer issue lists. */
  function ListLengths(m: map<string, seq<string>>): (r: map<string, nat>)
    ensures r.Keys == m.Keys
  {
    map d | d in m :: |m[d]|
  }

  /** Only non-empty issues other than "Other" are collected, in record order
      with duplicates kept, and a developer has a list exactly when one of
      their records has such an issue. */
  ghost predicate IssuesCollected(m: map<string, seq<string>>, team: seq<string>, records: seq<Record>) {
    && team == Issues(records, (r: Record) => true)
    && (forall d :: IssuesOf(m, d) == Issues(records, (r: Record) => r.developer == d))
    && (forall d :: d in m <==> Issues(records, (r: Record) => r.developer == d) != [])
    && (forall i :: 0 <= i < |team| ==> team[i] != "" && team[i] != OTHER)
  }

  lemma IssuesStep(m: map<string, seq<string>>, team: seq<string>, records: seq<Record>)
    requires records != [] && IssuesCollected(m, team, records[..|records| - 1])
    ensures IssuesCollected(IssuesByDevStep(m, records[|records| - 1]), team + IssueOf(records[|records| - 1]), records)
  {
    var last := records[|records| - 1];
    var mu := IssuesByDevStep(m, last);
    forall d
      ensures IssuesOf(mu, d) == Issues(records, (r: Record) => r.developer == d)
      ensures d in mu <==> Issues(records, (r: Record) => r.developer == d) != []
    {
      IssuesStepAt(m, records, d);
    }
    IssuesTeamStep(team, records);
    AppendIssueClean(team, last);
  }

  /** The team list after one more record. */
  lemma IssuesTeamStep(team: seq<string>, records: seq<Record>)
    requires records != [] && team == Issues(records[..|records| - 1], (r: Record) => true)
    ensures team + IssueOf(records[|records| - 1]) == Issues(records, (r: Record) => true)
  {
  }

  /** Appending a record's collected issue keeps every issue non-empty and
      other than "Other". */
  lemma AppendIssueClean(team: seq<string>, r: Record)
    requires forall i :: 0 <= i < |team| ==> team[i] != "" && team[i] != OTHER
    ensures forall i :: 0 <= i < |team + IssueOf(r)| ==> (team + IssueOf(r))[i] != "" && (team + IssueOf(r))[i] != OTHER
  {
    var all := team + IssueOf(r);
    forall i | 0 <= i < |all|
      ensures all[i] != "" && all[i] != OTHER
    {
      if i < |team| {
        assert all[i] == team[i];
      }
    }
  }

  /** One developer's list after one more record. */
  lemma IssuesStepAt(m: map<string, seq<string>>, records: seq<Record>, d: string)
    requires records != []
    requires IssuesOf(m, d) == Issues(records[..|records| - 1], (r: Record) => r.developer == d)
    requires d in m <==> Issues(records[..|records| - 1], (r: Record) => r.developer == d) != []
    ensures IssuesOf(IssuesByDevStep(m, records[|records| - 1]), d) == Issues(records, (r: Record) => r.developer == d)
    ensures d in IssuesByDevStep(m, records[|records| - 1]) <==> Issues(records, (r: Record) => r.developer == d) != []
  {
    var last := records[|records| - 1];
    assert IssuesOf(IssuesByDevStep(m, last), d) == IssuesOf(m, d) + (if d == last.developer then IssueOf(last) else []);
  }

  lemma {:induction false} TallyIssues(records: seq<Record>)
    ensures IssuesCollected(TallyOf(records).rawIssuesByDev, TallyOf(records).rawIssuesTeam, records)
    decreases |records|
  {
    if records != [] {
      var t := TallyOf(records[..|records| - 1]);
      TallyIssues(records[..|records| - 1]);
      IssuesStep(t.rawIssuesByDev, t.rawIssuesTeam, records);
    }
  }

  /** One collected issue lengthens the team list and its developer's list
      by one. */
  lemma IssueLengthsStep(m: map<string, seq<string>>, team: seq<string>, r: Record)
    requires |team| == SumValues(ListLengths(m))
    ensures |team + IssueOf(r)| == SumValues(ListLengths(IssuesByDevStep(m, r)))
  {
    ListLengthsStep(m, r);
    if Collected(r) {
      SumValuesUpdate(ListLengths(m), r.developer, |IssuesOf(m, r.developer)| + 1);
    }
  }

  /** The lengths after one record: its developer's grows by one when the
      record has a collected issue. */
  lemma ListLengthsStep(m: map<string, seq<string>>, r: Record)
    ensures ListLengths(IssuesByDevStep(m, r))
              == if Collected(r) then ListLengths(m)[r.developer := |IssuesOf(m, r.developer)| + 1] else ListLengths(m)
  {
    if !Collected(r) {
      assert IssuesByDevStep(m, r) == m;
    }
  }

  /** The team list is as long as all developer lists together. */
  lemma {:induction false} TallyIssueLengths(records: seq<Record>)
    ensures |TallyOf(records).rawIssuesTeam| == SumValues(ListLengths(TallyOf(records).rawIssuesByDev))
    decreases |records|
  {
    if records != [] {
      var init, last := records[..|records| - 1], records[|records| - 1];
      TallyIssueLengths(init);
      var t := TallyOf(init);
      IssueLengthsStep(t.rawIssuesByDev, t.rawIssuesTeam, last);
    }
  }

  /** The day counters of every developer count that developer's dated
      handled records, and a developer appears exactly when they have one. */
  ghost predicate DevDaysCounted(m: map<string, map<Day, nat>>, records: seq<Record>) {
    && (forall d, day :: Get(Days(m, d), day)
          == Count(records, (r: Record) => r.developer == d && IsHandled(r.classification) && r.day == Some(day)))
    && (forall d :: d in m <==>
          Count(records, (r: Record) => r.developer == d && IsHandled(r.classification) && r.day.Some?) > 0)
  }

  /** Each developer's day counter is non-empty with values at least 1. */
  predicate DevDaysPositive(m: map<string, map<Day, nat>>) {
    forall d :: d in m ==> |m[d]| > 0 && Positive(m[d])
  }

  lemma DevDaysStep(m: map<string, map<Day, nat>>, records: seq<Record>)
    requires records != [] && DevDaysCounted(m, records[..|records| - 1])
    ensures DevDaysCounted(DevDayStep(m, records[|records| - 1]), records)
  {
    var last := records[|records| - 1];
    var mu := DevDayStep(m, last);
    forall d, day
      ensures Get(Days(mu, d), day)
                == Count(records, (r: Record) => r.developer == d && IsHandled(r.classification) && r.day == Some(day))
    {
      if d == last.developer && IsHandled(last.classification) && last.day.Some? {
        assert Days(mu, d) == Bump(Days(m, d), last.day.value);
      } else {
        assert Days(mu, d) == Days(m, d);
      }
    }
  }

  lemma DevDaysPositiveStep(m: map<string, map<Day, nat>>, r: Record)
    requires DevDaysPositive(m)
    ensures DevDaysPositive(DevDayStep(m, r))
  {
    if IsHandled(r.classification) && r.day.Some? {
      var days := Days(m, r.developer);
      assert Positive(days);
      BumpPositive(days, r.day.value);
    }
  }

  /** A bump keeps a counter positive and makes it hold its key. */
  lemma BumpPositive<K(!new)>(m: map<K, nat>, k: K)
    requires Positive(m)
    ensures Positive(Bump(m, k)) && k in Bump(m, k) && |Bump(m, k)| > 0
  {
  }

  /** Handled suggestions per developer and day count the dated handled
      records; a developer appears exactly when they have one; and every
      developer's day counter is non-empty with values at least 1. */
  lemma {:induction false} TallyDevDays(records: seq<Record>)
    ensures DevDaysCounted(TallyOf(records).handledByDevDay, records)
    ensures DevDaysPositive(TallyOf(records).handledByDevDay)
    decreases |records|
  {
    if records != [] {
      TallyDevDays(records[..|records| - 1]);
      DevDaysStep(TallyOf(records[..|records| - 1]).handledByDevDay, records);
      DevDaysPositiveStep(TallyOf(records[..|records| - 1]).handledByDevDay, records[|records| - 1]);
    }
  }

  /** The team's day counters count the dated handled records, exist exactly
      when there is one, and are at least 1. */
  ghost predicate TeamDaysCounted(m: map<Day, nat>, records: seq<Record>) {
    && (forall day :: Get(m, day) == Count(records, (r: Record) => IsHandled(r.classification) && r.day == Some(day)))
    && (|m| > 0 <==> Count(records, (r: Record) => IsHandled(r.classification) && r.day.Some?) > 0)
    && Positive(m)
  }

  lemma TeamDaysStep(m: map<Day, nat>, records: seq<Record>)
    requires records != [] && TeamDaysCounted(m, records[..|records| - 1])
    ensures TeamDaysCounted(TeamDayStep(m, records[|records| - 1]), records)
  {
    var last := records[|records| - 1];
    if IsHandled(last.classification) && last.day.Some? {
      assert last.day.value in TeamDayStep(m, last);
    }
  }

  lemma {:induction false} TallyTeamDays(records: seq<Record>)
    ensures TeamDaysCounted(TallyOf(records).handledByTeamDay, records)
    decreases |records|
  {
    if records != [] {
      TallyTeamDays(records[..|records| - 1]);
      TeamDaysStep(TallyOf(records[..|records| - 1]).handledByTeamDay, records);
    }
  }

  // ---------------------------------------------------------------------
  // llm_group_recurring_issues
  // ---------------------------------------------------------------------

  /** A JSON value as `json.loads` gives it; an object keeps its members in
      document order. */
  datatype Json =
    | JNull
    | JBool(b: bool)
    | JNumber(n: real)
    | JString(s: string)
    | JArray(items: seq<Json>)
    | JObject(fields: seq<(string, Json)>)

  /** The grouping reply after `json.loads(raw_output)` and
      `parsed.get("canonical_categories", {})`: a failure inside the `try`
      (the text is not JSON, or the document is not an object and has no
      `.get`), or the value found under the key, None when it is absent. The
      value is taken as it is, whatever its JSON type. */
  datatype GroupReply = GroupsUnparsed(error: string) | GroupsParsed(categories: Option<Json>)

  /** The single message of the "ParsingError" group. */
  function ParseErrorMessage(raw: string, error: string): string {
    "Failed to parse model response: " + Prefix(raw, 200) + " | error=" + error
  }

  /** `llm_group_recurring_issues`: no oracle call for an empty list; a reply
      that does not parse is the object with the single group "ParsingError"
      holding one message; an absent key is the empty object; any other
      value under the key is returned unchanged, even one that is not an
      object. */
  function LlmGroupRecurringIssues(issues: seq<string>, complete: seq<string> -> string,
                                   decode: string -> GroupReply): (g: Json)
    ensures issues == [] ==> g == JObject([])
    ensures issues != [] && decode(complete(issues)).GroupsUnparsed? ==>
              g == JObject([(PARSING_ERROR, JArray([JString(ParseErrorMessage(complete(issues), decode(complete(issues)).error))]))])
    ensures issues != [] && decode(complete(issues)).GroupsParsed? ==>
              g == decode(complete(issues)).categories.GetOr(JObject([]))
  {
    if issues == [] then JObject([])
    else
      var raw := complete(issues);
      match decode(raw)
      case GroupsUnparsed(e) => JObject([(PARSING_ERROR, JArray([JString(ParseErrorMessage(raw, e))]))])
      case GroupsParsed(v) => v.GetOr(JObject([]))
  }

  /** Python's `len` on a JSON value: the characters of a string, the items
      of a list, the members of an object; None where `len` raises
      TypeError (null, a boolean, a number). */
  function Len(v: Json): (n: Option<nat>)
    ensures n.Some? <==> v.JString? || v.JArray? || v.JObject?
  {
    match v
    case JString(s) => Some(|s|)
    case JArray(items) => Some(|items|)
    case JObject(fields) => Some(|fields|)
    case _ => None
  }

  /** The exceptions the count comprehension raises: `.items()` on a value
      that is not an object (AttributeError), and `len` of a member value
      that has no length (TypeError), naming that member. */
  datatype GroupingError = ItemsOfNonObject | LenOfValue(canonical: string)

  /** `{canonical: len(instances) for canonical, instances in grouped.items()}`. */
  function GroupCounts(grouped: Json): (r: Result<seq<Item>, GroupingError>)
    ensures !grouped.JObject? ==> r == Err(ItemsOfNonObject)
    ensures grouped.JObject? ==> r == MemberCounts(grouped.fields)
  {
    match grouped
    case JObject(fields) => MemberCounts(fields)
    case _ => Err(ItemsOfNonObject)
  }

  /** The comprehension over an object's members, in order: it raises at the
      first member whose value has no length. */
  function MemberCounts(fields: seq<(string, Json)>): (r: Result<seq<Item>, GroupingError>)
    ensures r.Ok? <==> forall i :: 0 <= i < |fields| ==> Len(fields[i].1).Some?
    ensures r.Ok? ==> |r.value| == |fields|
                      && forall i :: 0 <= i < |fields| ==> r.value[i] == (fields[i].0, Len(fields[i].1).value)
    ensures r.Err? ==> exists i :: && 0 <= i < |fields| && Len(fields[i].1).None?
                                   && r.error == LenOfValue(fields[i].0)
                                   && forall j :: 0 <= j < i ==> Len(fields[j].1).Some?
    decreases |fields|
  {
    if fields == [] then Ok([])
    else
      match Len(fields[0].1)
      case None => Err(LenOfValue(fields[0].0))
      case Some(n) =>
        var rest := MemberCounts(fields[1..]);
        assert forall i :: 1 <= i < |fields| ==> fields[i] == fields[1..][i - 1];
        match rest
        case Err(e) => Err(e)
        case Ok(counts) => Ok([(fields[0].0, n)] + counts)
  }

  /** `dict(Counter(counts).most_common(RECURRING_ISSUE_TOP_K))`, or the
      exception of the count comprehension before it. */
  function TopIssues(grouped: Json): Result<seq<Item>, GroupingError> {
    match GroupCounts(grouped)
    case Ok(counts) => Ok(MostCommon(counts, RECURRING_ISSUE_TOP_K))
    case Err(e) => Err(e)
  }

  /** What one pass of the grouping loop computes for one list of issues. */
  function TopIssuesOf(issues: seq<string>, complete: seq<string> -> string,
                       decode: string -> GroupReply): Result<seq<Item>, GroupingError> {
    TopIssues(LlmGroupRecurringIssues(issues, complete, decode))
  }

  /** When the count comprehension succeeds: at most five entries, largest
      counts first, each a member's name with the length of its value. */
  lemma TopIssuesShape(grouped: Json)
    requires TopIssues(grouped).Ok?
    ensures grouped.JObject?
    ensures |TopIssues(grouped).value| == Counter.Min(5, |grouped.fields|)
    ensures Descending(TopIssues(grouped).value)
    ensures forall x :: x in TopIssues(grouped).value ==>
              exists f :: f in grouped.fields && x.0 == f.0 && Len(f.1) == Some(x.1)
  {
    var counts := GroupCounts(grouped).value;
    var top := TopIssues(grouped).value;
    MostCommonShape(counts, RECURRING_ISSUE_TOP_K);
    forall x | x in top
      ensures exists f :: f in grouped.fields && x.0 == f.0 && Len(f.1) == Some(x.1)
    {
      assert x in multiset(top);
      assert x in multiset(counts);
      var i :| 0 <= i < |counts| && counts[i] == x;
      assert grouped.fields[i] in grouped.fields;
    }
  }

  /** The reply the prompt asks for, an object whose members are lists,
      counts each canonical name with the length of its list. */
  lemma GroupCountsOfLists(fields: seq<(string, Json)>)
    requires forall i :: 0 <= i < |fields| ==> fields[i].1.JArray?
    ensures GroupCounts(JObject(fields)).Ok?
    ensures forall i :: 0 <= i < |fields| ==> GroupCounts(JObject(fields)).value[i] == (fields[i].0, |fields[i].1.items|)
  {
  }

  /** Parsed replies of the wrong shape: `null` under the key makes
      `.items()` raise, a member holding a number makes `len` raise, and a
      member holding a string is counted by its characters. */
  lemma MalformedGroupings(issues: seq<string>, complete: seq<string> -> string)
    requires issues != []
    ensures TopIssuesOf(issues, complete, (raw: string) => GroupsParsed(Some(JNull))) == Err(ItemsOfNonObject)
    ensures TopIssuesOf(issues, complete, (raw: string) => GroupsParsed(Some(JArray([])))) == Err(ItemsOfNonObject)
    ensures GroupCounts(JObject([("Null checks", JNumber(3.0))])) == Err(LenOfValue("Null checks"))
    ensures GroupCounts(JObject([("Null checks", JString("x may be null"))])) == Ok([("Null checks", 13)])
  {
    assert |"x may be null"| == 13;
    MemberCountsSingle("Null checks", JString("x may be null"));
  }

  /** An object with one member counts that member's length. */
  lemma MemberCountsSingle(name: string, v: Json)
    requires Len(v).Some?
    ensures MemberCounts([(name, v)]) == Ok([(name, Len(v).value)])
  {
    var fs := [(name, v)];
    assert forall i :: 0 <= i < |fs| ==> Len(fs[i].1).Some?;
    var c := MemberCounts(fs).value;
    assert |c| == 1 && c[0] == (name, Len(v).value);
    assert c == [(name, Len(v).value)];
  }

  /** A parse failure of the grouping reply gives the single entry
      ("ParsingError", 1). */
  lemma TopIssuesOfParseFailure(issues: seq<string>, complete: seq<string> -> string, decode: string -> GroupReply)
    requires issues != [] && decode(complete(issues)).GroupsUnparsed?
    ensures TopIssuesOf(issues, complete, decode) == Ok([(PARSING_ERROR, 1)])
  {
    var g := LlmGroupRecurringIssues(issues, complete, decode);
    assert g == JObject([(PARSING_ERROR, g.fields[0].1)]) && Len(g.fields[0].1) == Some(1);
    MemberCountsSingle(PARSING_ERROR, g.fields[0].1);
    var counts := GroupCounts(g).value;
    assert counts == [(PARSING_ERROR, 1)];
    MostCommonShape(counts, RECURRING_ISSUE_TOP_K);
    var r := TopIssues(g).value;
    assert |r| == 1;
    assert r[0] in multiset(r);
    assert r == [r[0]];
  }

  // ---------------------------------------------------------------------
  // calculate_developer_metrics and calculate_team_metrics
  // ---------------------------------------------------------------------

  /** `x / y if y else 0.0`. */
  function Ratio(x: nat, y: nat): real {
    if y != 0 then x as real / y as real else 0.0
  }

  /** A share of a whole lies in [0, 1]. */
  lemma RatioInUnit(x: nat, y: nat)
    requires x <= y
    ensures 0.0 <= Ratio(x, y) <= 1.0
  {
    if y != 0 {
      var q := x as real / y as real;
      assert q * y as real == x as real;
      assert (1.0 - q) * y as real == y as real - x as real;
    }
  }

  /** The acceptance-rate comprehension over `dev_totals`. */
  function AcceptanceRate(t: Tally): map<string, real> {
    map d | d in t.devTotals :: Ratio(Get(t.acceptedOrModified, d), t.devTotals[d])
  }

  /** The per-developer category comprehension. */
  function PerDevCategory(t: Tally): map<string, map<string, nat>> {
    map d | d in t.categoryCounts :: PerCategory(t.categoryCounts[d])
  }

  /** `sum(by_day.values()) / len(by_day) if by_day else 0.0`. */
  ghost function Average(m: map<Day, nat>): real {
    if |m| > 0 then SumValues(m) as real / |m| as real else 0.0
  }

  ghost function AvgPerDev(t: Tally): map<string, real> {
    map d | d in t.handledByDevDay :: Average(t.handledByDevDay[d])
  }

  /** What the grouping loop computes for each developer: their top issues,
      or the exception their list's grouping raises. */
  function DevGroupings(t: Tally, complete: seq<string> -> string, decode: string -> GroupReply)
    : map<string, Result<seq<Item>, GroupingError>>
  {
    map d | d in t.rawIssuesByDev :: TopIssuesOf(t.rawIssuesByDev[d], complete, decode)
  }

  /** No developer's grouping raises. */
  predicate DevGroupingsOk(t: Tally, complete: seq<string> -> string, decode: string -> GroupReply) {
    forall d :: d in t.rawIssuesByDev ==> TopIssuesOf(t.rawIssuesByDev[d], complete, decode).Ok?
  }

  /** `grouped_issues` when no developer's grouping raises. */
  function GroupedIssues(t: Tally, complete: seq<string> -> string, decode: string -> GroupReply)
    : map<string, seq<Item>>
    requires DevGroupingsOk(t, complete, decode)
  {
    map d | d in t.rawIssuesByDev :: TopIssuesOf(t.rawIssuesByDev[d], complete, decode).value
  }

  /** The loop filling `avg_per_dev`. */
  method AveragePerDeveloper(handledByDevDay: map<string, map<Day, nat>>) returns (avg: map<string, real>)
    ensures avg.Keys == handledByDevDay.Keys
    ensures forall d :: d in avg ==> avg[d] == Average(handledByDevDay[d])
  {
    avg := map[];
    var todo := handledByDevDay.Keys;
    while todo != {}
      invariant todo <= handledByDevDay.Keys
      invariant forall d :: d in avg <==> d in handledByDevDay && d !in todo
      invariant forall d :: d in avg ==> avg[d] == Average(handledByDevDay[d])
      decreases |todo|
    {
      var dev :| dev in todo;
      var byDay := handledByDevDay[dev];
      var a: real;
      if |byDay| > 0 {
        var s := SumOf(byDay);
        a := s as real / |byDay| as real;
      } else {
        a := 0.0;
      }
      assert a == Average(byDay);
      avg := avg[dev := a];
      todo := todo - {dev};
    }
  }

  /** The loop filling `grouped_issues`: one oracle call per developer; the
      first grouping that raises ends the loop with its exception. */
  method GroupPerDeveloper(rawIssuesByDev: map<string, seq<string>>, complete: seq<string> -> string,
                           decode: string -> GroupReply)
    returns (r: Result<map<string, seq<Item>>, GroupingError>)
    ensures r.Ok? <==> forall d :: d in rawIssuesByDev ==> TopIssuesOf(rawIssuesByDev[d], complete, decode).Ok?
    ensures r.Ok? ==> r.value.Keys == rawIssuesByDev.Keys
    ensures r.Ok? ==> forall d :: d in r.value ==> TopIssuesOf(rawIssuesByDev[d], complete, decode) == Ok(r.value[d])
    ensures r.Err? ==> exists d :: d in rawIssuesByDev && TopIssuesOf(rawIssuesByDev[d], complete, decode) == Err(r.error)
  {
    r := EachDeveloper(rawIssuesByDev, (issues: seq<string>) => TopIssuesOf(issues, complete, decode));
  }

  /** The `for dev, issues in raw_issues_by_dev.items()` loop, with what the
      body computes from one developer's list given as `top`. */
  method EachDeveloper(rawIssuesByDev: map<string, seq<string>>, top: seq<string> -> Result<seq<Item>, GroupingError>)
    returns (r: Result<map<string, seq<Item>>, GroupingError>)
    ensures r.Ok? <==> forall d :: d in rawIssuesByDev ==> top(rawIssuesByDev[d]).Ok?
    ensures r.Ok? ==> r.value.Keys == rawIssuesByDev.Keys
    ensures r.Ok? ==> forall d :: d in r.value ==> top(rawIssuesByDev[d]) == Ok(r.value[d])
    ensures r.Err? ==> exists d :: d in rawIssuesByDev && top(rawIssuesByDev[d]) == Err(r.error)
  {
    var grouped := map[];
    var todo := rawIssuesByDev.Keys;
    while todo != {}
      invariant todo <= rawIssuesByDev.Keys
      invariant forall d :: d in grouped <==> d in rawIssuesByDev && d !in todo
      invariant forall d :: d in grouped ==> top(rawIssuesByDev[d]) == Ok(grouped[d])
      decreases |todo|
    {
      var dev :| dev in todo;
      var result := top(rawIssuesByDev[dev]);
      if result.Err? {
        return Err(result.error);
      }
      grouped := grouped[dev := result.value];
      todo := todo - {dev};
    }
    assert grouped.Keys == rawIssuesByDev.Keys;
    return Ok(grouped);
  }

  /** The four results of `calculate_developer_metrics`, in its order. */
  datatype DeveloperMetrics = DeveloperMetrics(
    acceptanceRate: map<string, real>,
    avgPerDev: map<string, real>,
    groupedIssues: map<string, seq<Item>>,
    perDevCategory: map<string, map<string, nat>>)

  /** `calculate_developer_metrics`: the four results, or the exception of a
      developer's grouping, which the source does not catch. */
  method CalculateDeveloperMetrics(t: Tally, complete: seq<string> -> string, decode: string -> GroupReply)
    returns (r: Result<DeveloperMetrics, GroupingError>)
    ensures r.Ok? <==> DevGroupingsOk(t, complete, decode)
    ensures r.Ok? ==> r.value == DeveloperMetrics(AcceptanceRate(t), AvgPerDev(t),
                                                   GroupedIssues(t, complete, decode), PerDevCategory(t))
    ensures r.Err? ==> exists d :: d in t.rawIssuesByDev && DevGroupings(t, complete, decode)[d] == Err(r.error)
  {
    var avgPerDev := AveragePerDeveloper(t.handledByDevDay);
    var acceptanceRate := AcceptanceRate(t);
    var perDevCategory := PerDevCategory(t);
    var grouped := GroupPerDeveloper(t.rawIssuesByDev, complete, decode);
    if grouped.Err? {
      return Err(grouped.error);
    }
    assert grouped.value == GroupedIssues(t, complete, decode);
    return Ok(DeveloperMetrics(acceptanceRate, avgPerDev, grouped.value, perDevCategory));
  }

  /** The four results of `calculate_team_metrics`, in its order. */
  datatype TeamMetrics = TeamMetrics(
    teamAcceptanceRate: real,
    teamAvgHandled: real,
    teamCategoryCounts: map<string, nat>,
    teamGroupedIssues: seq<Item>)

  /** `calculate_team_metrics`: the four results, or the exception of the
      team's grouping. */
  method CalculateTeamMetrics(t: Tally, complete: seq<string> -> string, decode: string -> GroupReply)
    returns (r: Result<TeamMetrics, GroupingError>)
    ensures r.Ok? <==> TopIssuesOf(t.rawIssuesTeam, complete, decode).Ok?
    ensures r.Err? ==> r.error == TopIssuesOf(t.rawIssuesTeam, complete, decode).error
    ensures r.Ok? ==> r.value == TeamMetrics(Ratio(t.teamAcceptedOrModified, t.teamTotal), Average(t.handledByTeamDay),
                                              PerCategory(t.teamCategoryCounts),
                                              TopIssuesOf(t.rawIssuesTeam, complete, decode).value)
  {
    var teamAvgHandled: real;
    if |t.handledByTeamDay| > 0 {
      var s := SumOf(t.handledByTeamDay);
      teamAvgHandled := s as real / |t.handledByTeamDay| as real;
    } else {
      teamAvgHandled := 0.0;
    }
    var teamAcceptanceRate := Ratio(t.teamAcceptedOrModified, t.teamTotal);
    var teamCategoryCounts := PerCategory(t.teamCategoryCounts);
    var grouped := TopIssuesOf(t.rawIssuesTeam, complete, decode);
    if grouped.Err? {
      return Err(grouped.error);
    }
    return Ok(TeamMetrics(teamAcceptanceRate, teamAvgHandled, teamCategoryCounts, grouped.value));
  }

  // ---------------------------------------------------------------------
  // calculate_metrics
  // ---------------------------------------------------------------------

  /** The 8-tuple `calculate_metrics` returns, in its order. */
  datatype Metrics = Metrics(
    avgPerDev: map<string, real>,
    acceptanceRate: map<string, real>,
    perDevCategory: map<string, map<string, nat>>,
    groupedIssues: map<string, seq<Item>>,
    teamAvgHandled: real,
    teamAcceptanceRate: real,
    teamCategoryCounts: map<string, nat>,
    teamGroupedIssues: seq<Item>)

  /** The exception that escapes `calculate_metrics`: a developer's grouping
      raises first, since the developer metrics are computed first. */
  datatype MetricsError = DeveloperGroupingRaised(error: GroupingError) | TeamGroupingRaised(error: GroupingError)

  /** No grouping, of a developer or of the team, raises. */
  predicate GroupingsOk(t: Tally, complete: seq<string> -> string, decode: string -> GroupReply) {
    DevGroupingsOk(t, complete, decode) && TopIssuesOf(t.rawIssuesTeam, complete, decode).Ok?
  }

  /** The eight metrics of a tally whose groupings all succeed. */
  ghost function MetricsOf(t: Tally, complete: seq<string> -> string, decode: string -> GroupReply): Metrics
    requires GroupingsOk(t, complete, decode)
  {
    Metrics(AvgPerDev(t), AcceptanceRate(t), PerDevCategory(t), GroupedIssues(t, complete, decode),
            Average(t.handledByTeamDay), Ratio(t.teamAcceptedOrModified, t.teamTotal),
            PerCategory(t.teamCategoryCounts), TopIssuesOf(t.rawIssuesTeam, complete, decode).value)
  }

  /** `calculate_metrics`, with the classification rows as input: the eight
      metrics of their tally, or the first grouping exception. */
  method CalculateMetrics(records: seq<Record>, complete: seq<string> -> string, decode: string -> GroupReply)
    returns (r: Result<Metrics, MetricsError>)
    ensures r.Ok? <==> GroupingsOk(TallyOf(records), complete, decode)
    ensures r.Ok? ==> r.value == MetricsOf(TallyOf(records), complete, decode)
    ensures r.Err? ==> (r.error.DeveloperGroupingRaised? <==> !DevGroupingsOk(TallyOf(records), complete, decode))
    ensures r.Err? && r.error.DeveloperGroupingRaised? ==>
              exists d :: d in TallyOf(records).rawIssuesByDev
                          && DevGroupings(TallyOf(records), complete, decode)[d] == Err(r.error.error)
    ensures r.Err? && r.error.TeamGroupingRaised? ==>
              r.error.error == TopIssuesOf(TallyOf(records).rawIssuesTeam, complete, decode).error
  {
    var t := Aggregate(records);
    var dev := CalculateDeveloperMetrics(t, complete, decode);
    if dev.Err? {
      return Err(DeveloperGroupingRaised(dev.error));
    }
    var team := CalculateTeamMetrics(t, complete, decode);
    if team.Err? {
      return Err(TeamGroupingRaised(team.error));
    }
    var d, m := dev.value, team.value;
    return Ok(Metrics(d.avgPerDev, d.acceptanceRate, d.perDevCategory, d.groupedIssues,
                      m.teamAvgHandled, m.teamAcceptanceRate, m.teamCategoryCounts, m.teamGroupedIssues));
  }

  // ---------------------------------------------------------------------
  // Properties of the metrics
  // ---------------------------------------------------------------------

  /** Every developer with a record, and no one else, has an acceptance rate:
      the share of their records that are accepted or modified, in [0, 1]. */
  lemma AcceptanceRateProperties(records: seq<Record>)
    ensures forall d :: d in AcceptanceRate(TallyOf(records)) <==>
              Count(records, (r: Record) => r.developer == d) > 0
    ensures forall d :: d in AcceptanceRate(TallyOf(records)) ==>
              && 0.0 <= AcceptanceRate(TallyOf(records))[d] <= 1.0
              && AcceptanceRate(TallyOf(records))[d]
                   == Count(records, (r: Record) => r.developer == d && IsHandled(r.classification)) as real
                      / Count(records, (r: Record) => r.developer == d) as real
  {
    DevTotalsCount(records);
    DevTotalsSum(records);
    HandledCount(records);
    LabelsWithinTotals(records);
    var t := TallyOf(records);
    AcceptanceRateShape(t);
  }

  /** Over any tally whose totals are positive and bound the handled
      counts: a rate exactly for the developers with a nonzero total, each
      the handled share of that total. */
  lemma AcceptanceRateShape(t: Tally)
    requires Positive(t.devTotals)
    requires forall d :: Get(t.acceptedOrModified, d) <= Get(t.devTotals, d)
    ensures forall d :: d in AcceptanceRate(t) <==> Get(t.devTotals, d) > 0
    ensures forall d :: d in AcceptanceRate(t) ==>
              && 0.0 <= AcceptanceRate(t)[d] <= 1.0
              && AcceptanceRate(t)[d] == Get(t.acceptedOrModified, d) as real / Get(t.devTotals, d) as real
  {
    forall d | d in t.devTotals
      ensures 0.0 <= AcceptanceRate(t)[d] <= 1.0
    {
      RatioInUnit(Get(t.acceptedOrModified, d), t.devTotals[d]);
    }
  }

  /** The team rate is the share of handled records, in [0, 1], and 0.0 with
      no records. */
  lemma TeamAcceptanceRateProperties(records: seq<Record>)
    ensures 0.0 <= Ratio(TallyOf(records).teamAcceptedOrModified, TallyOf(records).teamTotal) <= 1.0
    ensures records == [] ==> Ratio(TallyOf(records).teamAcceptedOrModified, TallyOf(records).teamTotal) == 0.0
    ensures records != [] ==>
              (Ratio(TallyOf(records).teamAcceptedOrModified, TallyOf(records).teamTotal)
                 == Count(records, (r: Record) => IsHandled(r.classification)) as real / |records| as real)
  {
    TeamTotalCounts(records);
    TeamHandledCount(records);
    var t := TallyOf(records);
    RatioInUnit(t.teamAcceptedOrModified, t.teamTotal);
  }

  /** A day-keyed counter whose values are all at least 1 averages at least 1. */
  lemma AverageAtLeastOne(m: map<Day, nat>)
    requires |m| > 0 && Positive(m)
    ensures Average(m) >= 1.0
  {
    SumValuesAtLeastSize(m);
    QuotientAtLeastOne(SumValues(m) as real, |m| as real);
  }

  /** A quotient whose dividend is at least its positive divisor is at least 1. */
  lemma QuotientAtLeastOne(x: real, y: real)
    requires 0.0 < y <= x
    ensures x / y >= 1.0
  {
    var q := x / y;
    assert q * y == x;
    assert (q - 1.0) * y == x - y;
  }

  /** Only developers with a dated accepted or modified record have an
      average, and each average is at least 1; the team average is 0.0 with
      no such record and at least 1 otherwise. */
  lemma AveragesProperties(records: seq<Record>)
    ensures forall d :: d in AvgPerDev(TallyOf(records)) <==>
              Count(records, (r: Record) => r.developer == d && IsHandled(r.classification) && r.day.Some?) > 0
    ensures forall d :: d in AvgPerDev(TallyOf(records)) ==>
              AvgPerDev(TallyOf(records))[d] >= 1.0
    ensures Count(records, (r: Record) => IsHandled(r.classification) && r.day.Some?) == 0 ==>
              Average(TallyOf(records).handledByTeamDay) == 0.0
    ensures Count(records, (r: Record) => IsHandled(r.classification) && r.day.Some?) > 0 ==>
              Average(TallyOf(records).handledByTeamDay) >= 1.0
  {
    TallyDevDays(records);
    TallyTeamDays(records);
    var t := TallyOf(records);
    AveragesShape(t);
  }

  /** Over any tally whose day counters are non-empty and positive, every
      average is at least 1, and so is the team's when it has a day. */
  lemma AveragesShape(t: Tally)
    requires DevDaysPositive(t.handledByDevDay) && Positive(t.handledByTeamDay)
    ensures forall d :: d in AvgPerDev(t) <==> d in t.handledByDevDay
    ensures forall d :: d in AvgPerDev(t) ==> AvgPerDev(t)[d] >= 1.0
    ensures |t.handledByTeamDay| > 0 ==> Average(t.handledByTeamDay) >= 1.0
    ensures |t.handledByTeamDay| == 0 ==> Average(t.handledByTeamDay) == 0.0
  {
    forall d | d in t.handledByDevDay
      ensures AvgPerDev(t)[d] >= 1.0
    {
      AverageAtLeastOne(t.handledByDevDay[d]);
    }
    if |t.handledByTeamDay| > 0 {
      AverageAtLeastOne(t.handledByTeamDay);
    }
  }

  /** Summed over categories, a developer's counts are their accepted,
      modified and rejected records, at most their total; the team's sum is
      the number of accepted, modified and rejected records. */
  lemma CategoryProperties(records: seq<Record>)
    ensures forall d :: d in PerDevCategory(TallyOf(records)) ==>
              && SumValues(PerDevCategory(TallyOf(records))[d])
                   == Count(records, (r: Record) => r.developer == d && IsHandled(r.classification))
                      + Count(records, (r: Record) => r.developer == d && r.classification == REJECTED)
              && SumValues(PerDevCategory(TallyOf(records))[d])
                   <= Count(records, (r: Record) => r.developer == d)
    ensures SumValues(PerCategory(TallyOf(records).teamCategoryCounts))
              == Count(records, (r: Record) => IsHandled(r.classification) || r.classification == REJECTED)
  {
    DevTotalsCount(records);
    HandledCount(records);
    RejectedCount(records);
    LabelsWithinTotals(records);
    TallyCategorySums(records);
    var t := TallyOf(records);
    PerDevCategorySums(t);
  }

  /** Each developer's comprehension entry sums to that developer's slots. */
  lemma PerDevCategorySums(t: Tally)
    requires forall d :: SumValues(PerCategory(Cats(t.categoryCounts, d)))
                           == Get(t.acceptedOrModified, d) + Get(t.rejected, d)
    ensures forall d :: d in PerDevCategory(t) ==>
              SumValues(PerDevCategory(t)[d]) == Get(t.acceptedOrModified, d) + Get(t.rejected, d)
  {
    forall d | d in PerDevCategory(t)
      ensures SumValues(PerDevCategory(t)[d]) == Get(t.acceptedOrModified, d) + Get(t.rejected, d)
    {
      assert PerDevCategory(t)[d] == PerCategory(Cats(t.categoryCounts, d));
    }
  }

  /** Each developer's grouping that succeeds gives at most five entries,
      largest counts first. */
  lemma GroupedIssuesShape(t: Tally, complete: seq<string> -> string, decode: string -> GroupReply)
    ensures DevGroupings(t, complete, decode).Keys == t.rawIssuesByDev.Keys
    ensures forall d :: d in t.rawIssuesByDev && DevGroupings(t, complete, decode)[d].Ok? ==>
              && |DevGroupings(t, complete, decode)[d].value| <= RECURRING_ISSUE_TOP_K
              && Descending(DevGroupings(t, complete, decode)[d].value)
  {
    forall d | d in t.rawIssuesByDev && DevGroupings(t, complete, decode)[d].Ok?
      ensures |DevGroupings(t, complete, decode)[d].value| <= RECURRING_ISSUE_TOP_K
      ensures Descending(DevGroupings(t, complete, decode)[d].value)
    {
      TopIssuesShape(LlmGroupRecurringIssues(t.rawIssuesByDev[d], complete, decode));
    }
  }

  /** Only developers with a collected issue are grouped; each grouping is of
      that developer's own collected issues, and when it succeeds it has at
      most five entries, largest counts first. */
  lemma GroupedIssuesProperties(records: seq<Record>, complete: seq<string> -> string, decode: string -> GroupReply)
    ensures forall d :: d in DevGroupings(TallyOf(records), complete, decode) <==>
              Issues(records, (r: Record) => r.developer == d) != []
    ensures forall d :: d in DevGroupings(TallyOf(records), complete, decode) ==>
              DevGroupings(TallyOf(records), complete, decode)[d]
                == TopIssuesOf(Issues(records, (r: Record) => r.developer == d), complete, decode)
    ensures forall d :: d in DevGroupings(TallyOf(records), complete, decode)
                        && DevGroupings(TallyOf(records), complete, decode)[d].Ok? ==>
              && |DevGroupings(TallyOf(records), complete, decode)[d].value| <= RECURRING_ISSUE_TOP_K
              && Descending(DevGroupings(TallyOf(records), complete, decode)[d].value)
  {
    TallyIssues(records);
    var t := TallyOf(records);
    GroupedIssuesShape(t, complete, decode);
    forall d | d in t.rawIssuesByDev
      ensures t.rawIssuesByDev[d] == Issues(records, (r: Record) => r.developer == d)
    {
      assert IssuesOf(t.rawIssuesByDev, d) == t.rawIssuesByDev[d];
    }
  }

  /** The team grouping is of all collected issues, and when it succeeds it
      has at most five entries, largest counts first. */
  lemma TeamGroupedIssuesProperties(records: seq<Record>, complete: seq<string> -> string, decode: string -> GroupReply)
    ensures TopIssuesOf(TallyOf(records).rawIssuesTeam, complete, decode)
              == TopIssuesOf(Issues(records, (r: Record) => true), complete, decode)
    ensures TopIssuesOf(TallyOf(records).rawIssuesTeam, complete, decode).Ok? ==>
              && |TopIssuesOf(TallyOf(records).rawIssuesTeam, complete, decode).value| <= RECURRING_ISSUE_TOP_K
              && Descending(TopIssuesOf(TallyOf(records).rawIssuesTeam, complete, decode).value)
  {
    TallyIssues(records);
    if TopIssuesOf(TallyOf(records).rawIssuesTeam, complete, decode).Ok? {
      TopIssuesShape(LlmGroupRecurringIssues(TallyOf(records).rawIssuesTeam, complete, decode));
    }
  }
}
