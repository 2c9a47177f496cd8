# Code-review productivity pipeline, modelled in Dafny

This project models the core of a code-review productivity service. The
service stores code snapshots, each linked to its parent commit, and the
review suggestions made on them. When a merged snapshot arrives, the service
walks the parent chain back to its root. For every proper ancestor, it
classifies that ancestor's review suggestions against the ancestor's child
(accepted, modified or rejected, with a category and a recurring issue) and
persists one classification per review. From the stored classifications it
computes per-developer and team productivity metrics. It also scores the
release risk of a project from two completion estimates, and prepares the
numbered functional-requirement list for a non-functional-requirement
generator.

Each language model the service consults is an oracle: a function parameter
from a prompt to a reply. `json.loads` becomes a decoder parameter whose
result is a datatype with a parse-failed variant. The database is an
in-memory store (`Store.Db`) whose tables are fields the methods update.

Modules, one per part of the program:

- `Wrappers`: `Option` and `Result`.
- `Text`: the Python string operations the core relies on:
  - `strip`, `lower`, `splitlines`;
  - `find` and `rfind`;
  - slicing with negative indices;
  - `str(int)`.
- `Constants`: the label and category enums.
- `Store`: the three tables.
  - `class Db` is the session: `create_snapshot`, `create_review`,
    `create_classification` and the three queries.
  - Its pure specification covers parent chains and the classification
    upsert.
- `ReviewClassifier`: `build_prompt`'s excerpt window and
  `llm_classify_review`'s normalisation.
- `CommitChain`: `classify_commits`, as a loop proved against a recursive
  walk, with the walk's properties.
- `Counter`: `Counter.most_common`.
- `MapSums`: sums over counter dicts.
- `Metrics`: `calculate_metrics`, `calculate_developer_metrics`,
  `calculate_team_metrics` and `llm_group_recurring_issues`.
- `Api`: the `POST /classify` and `GET /generate_metrics` endpoints of
  `main.py`, plus the end-to-end resubmission property.
- `Risk`: the risk formula, `classify_risk_level`, the release decision
  and `calculate_risk`.
- `NfrGenerator`: `NFRGenerator.__init__` and `generate`: the FR list,
  the defaults and the brace-span fallback parse.

What the code does, as modelled:

- Recurring issues are grouped by one oracle call per list, with no
  batching, retry or deduplication.
- Risk bands are on a 0–1 scale. A high score means "Release".
- The excerpt keeps one line before the review range and two lines after
  it: the slice `[start - 2 : end + 2]` over 0-based line positions covers
  the 1-based lines start - 1 to end + 2.

## Model

| member | source | states |
|---|---|---|
| Store.StoredParent | db/db_operations.py:80 | A falsy parent (None or "") is stored as None; any other parent is kept as given |
| Store.ChainsStopInsert | db/db_operations.py:74-88 | Adding a snapshot under an id that no stored snapshot names as its parent keeps every parent chain finite |
| Store.Db.constructor | db/db_operations.py:18-59 | A new store has no snapshots, reviews or classifications, and satisfies the store invariant: consistent keys, counters ahead of every id, finite parent chains, and at most one classification row per review |
| Store.Db.CreateSnapshot | db/db_operations.py:74-88 | Adds exactly one snapshot, under the fresh commit id, with a normalised parent; existing snapshots and the other tables are unchanged; the store invariant (finite chains) is kept |
| Store.Db.GetSnapshotByCommit | db/db_operations.py:21 | Returns the snapshot stored under the id, whose commit id is that id (primary key), or None exactly when the id is absent |
| Store.Db.CreateReview | db/db_operations.py:96-108 | Appends one review whose id differs from every existing review id, and advances the autoincrement counter; nothing else changes |
| Store.ReviewsOf | db/db_operations.py:111-114 | Holds exactly the stored reviews with the given commit id, and no more of them than the table has |
| Store.ReviewsOfIncreasing | db/db_operations.py:111-114 | Filtering a table whose ids increase gives reviews whose ids increase |
| Store.Db.GetReviewsForCommit | db/db_operations.py:111-114 | Returns exactly the reviews whose commit id is the argument, with ids increasing |
| Store.Db.CreateClassification | db/db_operations.py:118-139 | If the review already has a row, that row is returned and the table is unchanged; otherwise one row with the new id and the given fields is appended; "at most one row per review" is preserved |
| Store.Db.GetClassificationsForReview | db/db_operations.py:142-145 | Returns exactly the rows for the review; at most one when the table has at most one row per review |
| Store.RowsFor | db/db_operations.py:142-145 | Holds exactly the rows for the review, and is empty exactly when no row has that review id |
| Store.FirstFor | db/db_operations.py:120-124 | Is None exactly when no row has the review id; otherwise it is a stored row for that review |
| Store.UpsertKeepsAtMostOne | db/db_operations.py:120-139 | One guarded insert keeps at most one row per review, only appends, and leaves the review with a row |
| Store.UpsertCovers | db/db_operations.py:120-139 | One guarded insert only appends, and leaves the review with a row |
| Store.UpsertAllProperties | db/db_operations.py:120-139 | A run of guarded inserts keeps at most one row per review, only appends, leaves each inserted review with exactly one row, and every new row carries the fields of some request |
| Store.RowsForDistinct | db/db_operations.py:51 | When no two rows share a review id, a review has at most one row |
| Store.OneRowFor | db/db_operations.py:51 | When no two rows share a review id, a review with a row has exactly one |
| Store.UpsertAllIdempotent | db/db_operations.py:120-126 | Repeating the same run of guarded inserts changes neither the table nor the id counter |
| Store.UpsertAllCovers | db/db_operations.py:120-139 | After a run of guarded inserts, every requested review has a row and the old rows are a prefix of the new table |
| Store.UpsertAllNoop | db/db_operations.py:120-126 | When every requested review already has a row, a run of guarded inserts changes nothing |
| Store.UpsertAllSnoc | db/db_operations.py:118-139 | Inserting one more request after a run equals one guarded insert applied to the state after the run |
| ReviewClassifier.BuildPromptWithoutRange | agents/prod_metrics/classify_reviews.py:38-47 | With no line range, the window is line 1 to the longer file's line count, and each excerpt is its whole file |
| ReviewClassifier.ExcerptWindow | agents/prod_metrics/classify_reviews.py:46-47 | For a review end of at least -2, each excerpt is the contiguous run of its own file's lines from max(0, start-2) to min(len, end+2), and is empty exactly when that range is empty |
| ReviewClassifier.ExcerptNegativeEndWraps | agents/prod_metrics/classify_reviews.py:46-47 | A review end of -3 makes the slice stop (end + 2 = -1) count from the end of the file: the excerpt is every line but the last |
| ReviewClassifier.OrDefault | agents/prod_metrics/classify_reviews.py:123-124 | `x or default` is x when x is non-empty, else the default; it is non-empty when the default is |
| ReviewClassifier.Normalise | agents/prod_metrics/classify_reviews.py:101-135 | Every outcome has a valid label and a non-empty category and recurring issue |
| ReviewClassifier.NormaliseParseFailure | agents/prod_metrics/classify_reviews.py:108-115 | A reply that does not parse yields rejected, confidence 0.0, a failure rationale quoting at most 200 characters of the reply, and category and issue "Other" |
| ReviewClassifier.NormaliseLowConfidence | agents/prod_metrics/classify_reviews.py:118-125 | Confidence below 0.6 yields rejected whatever the label, keeps the confidence, gives a low-confidence rationale, and takes the stripped category and issue or "Other" (the category is not checked against the enum) |
| ReviewClassifier.NormaliseConfident | agents/prod_metrics/classify_reviews.py:103-107 | At confidence 0.6 or more, the lower-cased, stripped label is kept exactly when it is valid, the category is in the enum and is kept exactly when it is one, the rationale is the given one, and the issue is non-empty (also lines 127-135) |
| ReviewClassifier.NormaliseReadsAccepted | agents/prod_metrics/classify_reviews.py:103-129 | A confident reply whose label, stripped and lower-cased, is "accepted" is classified accepted |
| ReviewClassifier.LlmClassifyReview | agents/prod_metrics/classify_reviews.py:85-135 | Fails exactly when the oracle call raises; otherwise it returns a valid label with a non-empty category and issue |
| ReviewClassifier.ClassifyOne | agents/prod_metrics/classify_reviews.py:166-191 | Each entry is tagged with its review, parent and child; its category and issue are non-empty; it is "unknown" with confidence 0.0 exactly when the oracle raised, and otherwise has a valid label |
| ReviewClassifier.ToNewClassification | main.py:47-55 | The stored request carries the whole result: its review id, label, category, recurring issue, confidence and rationale |
| Constants.CategoriesAreNonEmpty | agents/prod_metrics/constants.py:3 | No review category is the empty string |
| CommitChain.ClassifyAll | agents/prod_metrics/classify_reviews.py:166-191 | One entry per review of the parent, in store order, each classified against the pair |
| CommitChain.WalkFrom | agents/prod_metrics/classify_reviews.py:154-196 | The walk only fails on a parent id that is not stored |
| CommitChain.ClassifyCommitsSpec | agents/prod_metrics/classify_reviews.py:147-157 | Fails with CommitNotFound exactly when the target is not stored; ParentNotFound names an id that is not stored; a root target gives no entries |
| CommitChain.WalkDecomposes | agents/prod_metrics/classify_reviews.py:154-194 | The walk either raises on the dangling parent at the end of the ancestor chain, or returns, ancestor by ancestor from the target backward, each ancestor's reviews in store order classified against its child |
| CommitChain.AncestorsDistinct | agents/prod_metrics/classify_reviews.py:154 | With finite chains, no commit repeats along the walk and the target is not among its ancestors, although the loop keeps no visited set |
| CommitChain.AncestorsChain | agents/prod_metrics/classify_reviews.py:154-157 | Each ancestor is the stored snapshot under its id, and is the parent of the commit one step closer to the target; the walk stops on the last ancestor's parent link (also line 194) |
| CommitChain.AlongOnce | agents/prod_metrics/classify_reviews.py:159-191 | Along a chain of distinct commits, no review is classified twice |
| CommitChain.ClassifyCommitsPairs | agents/prod_metrics/classify_reviews.py:182-194 | Every entry pairs a stored parent with its stored child, comes from a stored review, and never has the target as its parent |
| CommitChain.AlongExactly | agents/prod_metrics/classify_reviews.py:159-191 | Along any chain of snapshots, a stored review gets an entry exactly when its commit is on the chain |
| CommitChain.ClassifiedFromAncestor | agents/prod_metrics/classify_reviews.py:159-194 | Every entry of a successful walk is for a stored review of a stored ancestor of the target |
| CommitChain.AncestorReviewClassified | agents/prod_metrics/classify_reviews.py:159-194 | Every stored review of a stored ancestor of the target gets an entry in a successful walk |
| CommitChain.ClassifyCommitsCovers | agents/prod_metrics/classify_reviews.py:154-194 | Each review is classified at most once, and a stored review is classified exactly when it belongs to a proper ancestor of the target (the root included); the target's own reviews never are |
| CommitChain.ClassifyCommitsMissingParent | agents/prod_metrics/classify_reviews.py:155-157 | A ParentNotFound error names the unresolved parent of the last snapshot reached, and the target itself is stored |
| CommitChain.ClassifyEach | agents/prod_metrics/classify_reviews.py:166-191 | The inner loop produces the entries of the specification, one per review |
| CommitChain.ClassifyCommits | agents/prod_metrics/classify_reviews.py:138-196 | The while loop returns what the recursive walk specifies, error cases included |
| Counter.Insert | agents/prod_metrics/generate_metrics.py:168 | Inserting into a sorted list adds exactly that item |
| Counter.SortDescendingProperties | agents/prod_metrics/generate_metrics.py:168 | Sorting is a permutation, counts descend, and items with equal counts keep their original order |
| Counter.MostCommonShape | agents/prod_metrics/generate_metrics.py:168 | most_common(n) returns min(n, len) items drawn from the input, with counts descending (also line 207) |
| Counter.MostCommonDropsSmaller | agents/prod_metrics/generate_metrics.py:168 | No item left out has a larger count than an item kept (also line 207) |
| Counter.MostCommonTiesInOrder | agents/prod_metrics/generate_metrics.py:168 | Items with equal counts come out in the order they were first encountered (also line 207) |
| MapSums.SumValuesRemove | agents/prod_metrics/generate_metrics.py:159 | The sum of the values does not depend on the order the keys are taken in (also line 190) |
| MapSums.SumValuesAtLeastSize | agents/prod_metrics/generate_metrics.py:190 | When every count is at least 1, the sum is at least the number of keys |
| MapSums.SumOf | agents/prod_metrics/generate_metrics.py:159 | The loop computes the sum of the dict's values (also line 190) |
| Metrics.Bump | agents/prod_metrics/generate_metrics.py:100-108 | `d[k] += 1` on a defaultdict: k gains one, and every other key keeps its count |
| Metrics.AddRecord | agents/prod_metrics/generate_metrics.py:99-123 | One pass of the loop body leaves every counter as the one-record step of the fold defines it |
| Metrics.CountClassification | agents/prod_metrics/generate_metrics.py:105-116 | The label branch updates the day, handled, rejected and category counters by their steps and leaves the totals and issue lists alone |
| Metrics.CountHandled | agents/prod_metrics/generate_metrics.py:105-112 | An accepted or modified record bumps its developer's handled count, the team's handled count and the ACCEPTED slots of its category, and its day counters when dated |
| Metrics.CountRejectedRecord | agents/prod_metrics/generate_metrics.py:113-116 | A rejected record bumps its developer's rejected count and the REJECTED slots of its category, and nothing else |
| Metrics.CollectIssue | agents/prod_metrics/generate_metrics.py:118-120 | A collected issue is appended to its developer's list and the team list; other records change neither |
| Metrics.Aggregate | agents/prod_metrics/generate_metrics.py:99-123 | The for loop over the records computes the counters of the fold |
| Metrics.TallyTotals | agents/prod_metrics/generate_metrics.py:100-123 | Each developer's total is their number of records, team_total is the number of records, and it equals the sum of the developer totals |
| Metrics.TallyLabels | agents/prod_metrics/generate_metrics.py:105-116 | Accepted and modified both count as handled and rejected counts as rejected, per developer and for the team; any other label only counts in the totals |
| Metrics.TallyCategories | agents/prod_metrics/generate_metrics.py:102-116 | Each (developer, category) cell counts that developer's handled records and rejected records in the category, with a missing category read as "Other"; likewise for the team |
| Metrics.TallyCategorySums | agents/prod_metrics/generate_metrics.py:111-116 | Summed over categories, a developer's counts are their handled plus rejected records, and the team's are all handled or rejected records (also lines 163-164, 195-198) |
| Metrics.TallyIssues | agents/prod_metrics/generate_metrics.py:118-120 | Only non-empty issues other than "Other" are collected, with duplicates kept: per developer in record order, and for the whole team |
| Metrics.TallyIssueLengths | agents/prod_metrics/generate_metrics.py:118-120 | The team issue list is as long as all the developer lists together |
| Metrics.TallyDevDays | agents/prod_metrics/generate_metrics.py:103-107 | Each (developer, day) counter counts that developer's handled records on that day; only developers with such a record appear, each with at least one day, and every count is at least 1 |
| Metrics.TallyTeamDays | agents/prod_metrics/generate_metrics.py:103-108 | Each team day counter counts the handled records on that day |
| Metrics.LlmGroupRecurringIssues | agents/prod_metrics/generate_metrics.py:50-66 | An empty list gives the empty object and makes no oracle call; an unparseable reply (or a document that is not an object) gives the object with the single group "ParsingError" holding one message; an absent key gives the empty object; any other value under the key is returned as it is, whatever its JSON type |
| Metrics.GroupCounts | agents/prod_metrics/generate_metrics.py:204 | `.items()` on a value that is not an object raises; otherwise each member becomes its name with the `len` of its value, in member order |
| Metrics.MemberCounts | agents/prod_metrics/generate_metrics.py:204 | Succeeds exactly when every member value has a length (string, list or object), giving each name with that length; otherwise raises at the first member without one, naming it |
| Metrics.Len | agents/prod_metrics/generate_metrics.py:204 | Python's `len` is defined exactly for strings, lists and objects |
| Metrics.TopIssuesShape | agents/prod_metrics/generate_metrics.py:204-207 | When the counts succeed, the grouping was an object and the result has min(5, number of members) entries, counts descending, each a member's name with the length of its value |
| Metrics.GroupCountsOfLists | agents/prod_metrics/generate_metrics.py:204 | For the reply the prompt asks for, an object of lists, each canonical name is counted with the length of its list |
| Metrics.MalformedGroupings | agents/prod_metrics/generate_metrics.py:62-66 | A parsed reply with null or a list under the key makes `.items()` raise; a member holding a number makes `len` raise; a member holding a string is counted by its characters (also line 204) |
| Metrics.TopIssuesOfParseFailure | agents/prod_metrics/generate_metrics.py:65-66 | A reply that does not parse gives the single entry ("ParsingError", 1) (also lines 204-207) |
| Metrics.RatioInUnit | agents/prod_metrics/generate_metrics.py:161 | A share of a whole lies in [0, 1] (also lines 192-193) |
| Metrics.PerCategory | agents/prod_metrics/generate_metrics.py:163-164 | Keeps the categories, each with its accepted plus rejected count (also lines 195-198) |
| Metrics.AveragePerDeveloper | agents/prod_metrics/generate_metrics.py:188-190 | The loop gives each developer with day counters the mean of those counters, and no one else an entry |
| Metrics.EachDeveloper | agents/prod_metrics/generate_metrics.py:200-208 | The loop over the developers' issue lists succeeds exactly when the body succeeds for every list, and then gives every developer with a list, and no one else, the body's result; otherwise it ends with the exception of some developer's list |
| Metrics.GroupPerDeveloper | agents/prod_metrics/generate_metrics.py:200-208 | Succeeds exactly when no developer's grouping raises, and then gives each developer with collected issues the top issues of their own list; otherwise returns the exception of some developer's grouping |
| Metrics.CalculateDeveloperMetrics | agents/prod_metrics/generate_metrics.py:172-209 | Raises exactly when some developer's grouping raises, with that grouping's exception; otherwise returns the acceptance rates, the per-day averages, the grouped issues and the per-category sums of the tally |
| Metrics.CalculateTeamMetrics | agents/prod_metrics/generate_metrics.py:143-169 | Raises exactly when the team grouping raises, with its exception; otherwise returns the team rate (0.0 with no record), the team mean per day (0.0 with no day), the per-category totals and the top team issues |
| Metrics.CalculateMetrics | agents/prod_metrics/generate_metrics.py:72-140 | Returns the eight results in the source's order exactly when no grouping raises; otherwise the exception escapes, a developer's first when one fails, else the team's |
| Metrics.AcceptanceRateShape | agents/prod_metrics/generate_metrics.py:192-193 | Over any tally with positive totals that bound the handled counts, exactly the developers with a nonzero total have a rate, equal to handled over total and in [0, 1] |
| Metrics.AcceptanceRateProperties | agents/prod_metrics/generate_metrics.py:192-193 | Exactly the developers with a record have a rate, namely their share of handled records, which lies in [0, 1] |
| Metrics.TeamAcceptanceRateProperties | agents/prod_metrics/generate_metrics.py:161 | The team rate lies in [0, 1], is 0.0 with no records, and is otherwise the share of handled records |
| Metrics.AverageAtLeastOne | agents/prod_metrics/generate_metrics.py:190 | The mean of counters that are all at least 1 is at least 1 |
| Metrics.AveragesProperties | agents/prod_metrics/generate_metrics.py:103-108 | Exactly the developers with a dated handled record have an average, each at least 1; the team average is 0.0 with no dated handled record and at least 1 otherwise (also lines 159, 189-190) |
| Metrics.AveragesShape | agents/prod_metrics/generate_metrics.py:187-190 | From day counters that are all positive, exactly the developers with a day dict get an average, each at least 1; the team average is at least 1 with a day and 0.0 without (also line 159) |
| Metrics.CategoryProperties | agents/prod_metrics/generate_metrics.py:163-164 | Summed over categories, a developer's counts are their handled plus rejected records, which is at most their total; the team sum is the number of handled or rejected records (also lines 195-198) |
| Metrics.PerDevCategorySums | agents/prod_metrics/generate_metrics.py:195-198 | From counters whose category cells sum to handled plus rejected, each developer's per-category dict sums to their handled plus rejected count |
| Metrics.GroupedIssuesShape | agents/prod_metrics/generate_metrics.py:200-208 | Each developer with issues gets a grouping outcome; one that succeeds has at most five entries, counts descending |
| Metrics.GroupedIssuesProperties | agents/prod_metrics/generate_metrics.py:118-119 | Exactly the developers with a collected issue are grouped, each on their own collected issues; a grouping that succeeds has at most five entries, counts descending (also lines 200-208) |
| Metrics.TeamGroupedIssuesProperties | agents/prod_metrics/generate_metrics.py:120 | The team grouping is of all collected issues; when it succeeds it has at most five entries, counts descending (also lines 166-168) |
| Api.NewSnapshot | main.py:33-40 | The stored snapshot has the fresh id and is a chain root exactly when the request's parent is empty; otherwise its parent is the request's |
| Api.Stored | main.py:33-40 | Storing the request's snapshot keeps chains finite and snapshots keyed by their own id; it adds exactly the new entry and keeps every old one |
| Api.Rows | main.py:46-55 | One store request per result, in result order, each carrying the result's review id and label |
| Api.SaveClassifications | main.py:46-55 | The loop passes every result to create_classification in result order, so the table ends as the guarded inserts of all results; snapshots and reviews are unchanged |
| Api.ClassifySnapshot | main.py:24-57 | The snapshot is stored before the walk, which starts from the fresh id. The response echoes the walk's results, which may differ from what the store kept. On success every result is upserted, the earlier rows stay, and every result's review ends with exactly one row; on a missing parent nothing is saved; an empty parent gives no results and saves nothing |
| Api.ChainIgnoresInsert | main.py:33-43 | Storing a snapshot under an unreferenced id changes no existing commit's ancestors or dangling parent |
| Api.ResubmitSameChain | main.py:33-43 | A second submission with the same parent walks the same ancestors and the same dangling parent as the first |
| Api.SameChainCovers | main.py:43-55 | Every review classified by the second walk was classified by the first |
| Api.SameChainSameReviews | main.py:46-55 | After the first walk's results are saved, saving the second walk's results changes nothing (with the upsert of db/db_operations.py, lines 120-126) |
| Api.ResubmitAddsNothing | main.py:24-57 | Resubmitting the same request succeeds exactly when the first one did, fails the same way, and on success saving its results adds no classification row and leaves the id counter unchanged (with the upsert of db/db_operations.py, lines 120-126) |
| Api.ResponseOf | main.py:67-76 | The response puts the eight metrics under their fixed keys, positionally, and they can be read back unchanged |
| Api.GenerateMetrics | main.py:60-76 | Fails exactly when a grouping raises inside calculate_metrics, with a developer's grouping error exactly when some developer's grouping raises and otherwise the team grouping's error; on success the response carries exactly the eight results under their keys |
| Risk.LevelOf | agents/risk_control/risk_agent.py:99-102 | A level other than "Unknown" comes from a band holding the score; when no band is labelled "Unknown", the result is "Unknown" exactly when no band holds the score |
| Risk.ClassifyRiskLevel | agents/risk_control/risk_agent.py:93-102 | The loop with its early return gives the level of the first band holding the score |
| Risk.RiskLevelBands | agents/risk_control/risk_agent.py:27-31 | [0,0.4) is Low, [0.4,0.7) is Medium and [0.7,1.0) is High; anything else (1.0 and negative scores included) is "Unknown", in both directions (also lines 93-102) |
| Risk.RiskScoreBounds | agents/risk_control/risk_agent.py:21-23 | The weights sum to 1; rates in [0,1] give a score in [0,1]; full rates give 0 and zero rates give 1 (also lines 158-162) |
| Risk.RiskScoreMonotone | agents/risk_control/risk_agent.py:158-162 | The score never rises when any completion rate rises |
| Risk.ReleaseDecision | agents/risk_control/risk_agent.py:167-172 | At 0.7 or above the decision is Release; at 0.5 or below it is Do Not Release; strictly between, it is Conditionally Release; each in both directions, so exactly one applies |
| Risk.LevelAndDecision | agents/risk_control/risk_agent.py:27-31 | A High-band score is always released, a Low-band score never is, and a Medium-band score is never released: held back exactly up to 0.5, conditionally released above (also lines 167-172) |
| Risk.CompilationEstimate | agents/risk_control/risk_agent.py:133-141 | An unparsed reply gives rate and confidence 0 with a parsing-error rationale; absent fields read as 0.0 |
| Risk.RequirementsEstimate | agents/risk_control/risk_agent.py:146-155 | An unparsed reply gives both rates and the confidence 0 with a parsing-error rationale; absent fields read as 0.0 |
| Risk.Assess | agents/risk_control/risk_agent.py:158-202 | The record's score is the weighted formula over the estimates; the returned score is 100 times it; the level and decision are those of the score; the three rates, the two confidences and the joined "Compilation: … FR/NFR: …" rationale are those of the estimates; the record names the project and commit |
| Risk.CalculateRisk | agents/risk_control/risk_agent.py:105-204 | Fails with SnapshotNotFound exactly when there is no latest snapshot, and with NoRequirements exactly when there is one but both requirement lists are empty; an oracle failure comes from one of the two truncated prompts; it succeeds exactly when both oracle calls answer, and the result is then the assessment of the latest snapshot's commit from the estimates of the two decoded replies |
| Risk.ErrorsBeforeOracle | agents/risk_control/risk_agent.py:119-128 | Both not-found errors are raised before any oracle call: the result does not depend on the oracle |
| Risk.BothParsesFail | agents/risk_control/risk_agent.py:138-141 | When both replies fail to parse, all rates are 0, the score is 1.0 (100 as returned), the level is "Unknown" and the decision is "Release" (also lines 152-172) |
| Risk.OverfullRatesAreUnknown | agents/risk_control/risk_agent.py:27-31 | Rates above 1, which the code does not clamp, give a negative score: level "Unknown" and Do Not Release (also lines 99-102, 158-172) |
| NfrGenerator.ChosenModel | agents/nfr_agent/engine.py:64-70 | An empty model takes DEFAULT_MODEL; any other model is kept |
| NfrGenerator.ChosenDomain | agents/nfr_agent/engine.py:82 | A missing or empty domain takes "General software system"; any other domain is kept |
| NfrGenerator.KeptIndices | agents/nfr_agent/engine.py:78-79 | The kept positions are exactly the non-blank requirements, in increasing order |
| NfrGenerator.FrObjects | agents/nfr_agent/engine.py:78-79 | The k-th object is the stripped k-th non-blank requirement, with id "FR-" and its input position plus one |
| NfrGenerator.FrObjectsNumbering | agents/nfr_agent/engine.py:78-79 | Every non-blank requirement has its object, numbered by its original position, so blanks leave gaps and nothing is renumbered |
| NfrGenerator.FrObjectsWellFormed | agents/nfr_agent/engine.py:78-81 | The ids are distinct, no text is empty, and the list is empty exactly when every requirement is blank |
| NfrGenerator.BraceSpan | agents/nfr_agent/engine.py:108-113 | There is a span exactly when a '{' and a '}' exist and the last '}' is after the first '{'; the span then runs from the first '{' to the last '}' inclusive |
| NfrGenerator.ParseReply | agents/nfr_agent/engine.py:105-113 | A reply that parses is the result; otherwise the span is parsed when there is one; otherwise the first error is raised again |
| NfrGenerator.ParseReplyRecoversWrapped | agents/nfr_agent/engine.py:105-113 | A JSON object wrapped in text with no brace of its own is recovered by the fallback |
| NfrGenerator.Generator.constructor | agents/nfr_agent/engine.py:68-75 | The generator holds the chosen model and the key |
| NfrGenerator.Generator.Create | agents/nfr_agent/engine.py:68-75 | A missing API key fails before any client is built; otherwise the generator holds the chosen model and the key |
| NfrGenerator.Generator.Generate | agents/nfr_agent/engine.py:77-114 | Fails with NoFunctionalRequirements exactly when every requirement is blank, and then the chat is not called; otherwise the chat sees the model, the chosen domain and the numbered list; its exception propagates, and its content goes through the fallback parse |
| Text.Strip | agents/prod_metrics/classify_reviews.py:103-107 | `strip()` gives "" exactly for strings made only of whitespace |
| Text.StripIsTrimmedInfix | agents/nfr_agent/engine.py:78 | `strip()` is a contiguous piece of the string with only whitespace cut on either side, and it neither starts nor ends with whitespace |
| Text.Lower | agents/prod_metrics/classify_reviews.py:103 | `lower()` over ASCII keeps the length, turns each capital into its lower-case letter 32 code points up, and keeps every other character in place |
| Text.LowerIdempotent | agents/prod_metrics/classify_reviews.py:103 | Lower-casing twice is lower-casing once |
| Text.SplitLines | agents/prod_metrics/classify_reviews.py:38-39 | The lines are those of LineEnds without their terminators: none contains a line boundary, and "" has no lines |
| Text.Cut | agents/prod_metrics/classify_reviews.py:38-39 | The first line of a text holds no boundary and is followed by "\r\n" or one boundary character, or by nothing when it is the whole text; line, terminator and rest rebuild the text, and a "\r" terminator is never followed by "\n" |
| Text.LineEndsShape | agents/prod_metrics/classify_reviews.py:38-39 | No line holds a boundary, only the last piece may lack a terminator, no piece is empty, a "\r" is never split from the "\n" after it, and the first piece starts the text |
| Text.SplitLinesRoundTrip | agents/prod_metrics/classify_reviews.py:38-39 | For every text, the lines each followed by their terminator rebuild the text |
| Text.SplitLinesCrLf | agents/prod_metrics/classify_reviews.py:38-39 | "a\r\nb" splits into the two lines "a" and "b" |
| Text.Slice | agents/prod_metrics/classify_reviews.py:46-47 | Python's `s[lo:hi]`: negative bounds count from the end, bounds are clamped, and the slice is empty when they cross |
| Text.Prefix | agents/risk_control/risk_agent.py:60-84 | `s[:n]` is a prefix of s of length min(n, len) |
| Text.Find | agents/nfr_agent/engine.py:108 | `find` returns -1 exactly when the character is absent, and otherwise its first position |
| Text.RFind | agents/nfr_agent/engine.py:109 | `rfind` returns -1 exactly when the character is absent, and otherwise its last position |
| Text.NatToStringRoundTrip | agents/nfr_agent/engine.py:78 | The decimal text of a number reads back as that number |
| Text.NatToStringInjective | agents/nfr_agent/engine.py:78 | Different numbers have different decimal texts |

## Left out

- The language models:
  - The review classifier, the issue grouper, the risk estimator and the Groq chat client are oracle parameters.
  - Their prompt texts are left out. Only the data each prompt carries is kept: the excerpt bounds and the truncated code.
  - The clients in util/llm_agent.py and the code-review and NFR llm_agent modules are not part of this model.
  - agents/prod_metrics/llm_agent is not part of this model.
- `json.loads` and `safe_json_parse` are decoder parameters.
  - For classification and risk replies, a parsed document of the wrong shape (not an object, a label, category or issue that is not a string, a confidence that `float()` rejects) raises inside the source's `try`, so it counts as a parse failure.
  - For the grouping reply only `json.loads` and `.get` are inside the `try`. The value under "canonical_categories" is kept as a JSON value, and the `.items()` and `len` failures it causes are modelled as errors.
  - Duplicate JSON keys are not modelled.
- Database helpers that db/db_operations.py does not show are inputs or outputs:
  - `get_all_classifications_with_snapshot_info` supplies the metric records.
  - `get_latest_snapshot_by_project` and the two requirement queries supply the inputs of `calculate_risk`.
  - `create_risk_assessment` becomes the returned `RiskRecord`.
- SQLAlchemy and the database:
  - session commit and refresh, foreign-key enforcement, timestamps and connection plumbing are left out;
  - db/connection.py and tests/test_connection.py are not part of this model.
- `uuid4` commit ids: the caller supplies a fresh id. It is not stored and is not named as any snapshot's parent. This is what makes chains finite.
- Risk.CalculateRisk: `round(..., 2)` and `round(score * 100, 1)` are not modelled. The level and the decision use the exact score, which differs from the source within 0.005 of a band edge or threshold. Rates and scores are exact reals, not floats.
- Risk.Assess: the fr, nfr and compilation scores, the risk score and the score times 100 are the exact values. The source rounds the first four to two places and the last to one place (agents/risk_control/risk_agent.py lines 164, 174-176 and 185). The level and the decision are taken from the exact score, where the source uses the rounded one. Rates and scores are exact reals, not floats.
- ReviewClassifier.Normalise: the confidence is an exact real, where the source has a Python float. `json.loads` also accepts `NaN` and `Infinity`. Because `NaN < 0.6` is false, a NaN confidence takes the confident branch; no real value behaves that way, so that case is not modelled.
- Metrics.Ratio: acceptance rates are exact rational quotients, where the source uses Python float division, whose result is the nearest float.
- Metrics.Average: per-day averages are exact rational quotients, where the source uses Python float division, whose result is the nearest float.
- Store.Db.CreateClassification: the column types of the MariaDB tables are not modelled.
  - `confidence` is `DECIMAL(3, 2)`. The database stores it rounded to two places, and the refreshed row returns that rounded value. A value outside ±9.99, or NaN, cannot be stored. The model keeps the exact confidence, and its save loop never fails.
  - The `String(n)` widths are not modelled either: 36 for the commit ids, 50 for the label and the language, 100 for the developer and the category, and 255 for the recurring issue. A longer value is rejected or truncated, depending on the server's SQL mode. This matters for the low-confidence category, which is not checked against the category list.
- Metrics.LlmGroupRecurringIssues: an exception from the grouping oracle's transport is not modelled. Only a reply that does not parse is.
- Metrics.CalculateMetrics: when several developers' groupings raise, which one's exception escapes depends on dict order. The model promises only that it is one of them.
- Api.GenerateMetrics: FastAPI's 500 response for an exception that escapes the endpoint is not modelled. The error is returned instead.
- ReviewClassifier.Normalise: a rationale that is present but not a string (null, a number, a list) is read as absent. The source passes that value on, and its low-confidence note shows Python's `str()` of it, such as "None".
- Risk.CompilationEstimate: a rationale that is present but not a string is read as absent, where the source's f-string shows its `str()`, such as "None".
- Risk.RequirementsEstimate: the same holds for the FR/NFR rationale.
- Text.Lower: only ASCII capitals are lowered. Python's `lower()` also maps other Unicode capitals, and turns 'İ' into two characters. No non-ASCII character lowers to an ASCII letter except the Kelvin sign (to 'k') and 'İ' (to "i" and a combining dot), and neither can make one of the three accepted labels: none of them holds a 'k', and the dot would stay in the text.
- Dict iteration order: dicts are maps, so the order in which the metric dicts list their keys is left out.
  - Counter's tie order is modelled over the group list in reply order.
  - The groups of a parsed reply form a list, so a repeated canonical name is not merged as a dict would merge it.
- A snapshot date is an opaque optional day key.
- `print` logging is left out.
- agents/code_review/reviewer.py is not part of this model: a PHP linter subprocess, temp files and an HTTP endpoint.
- dashboard/web_dashboard.py is not part of this model: Streamlit UI and HTTP fetches.
- NfrGenerator.Generator.Generate:
  - The chat request carries only the model, the domain and the numbered FRs. The system prompt, schema, instructions and sampling settings are fixed constants and are left out.
  - The parsed document is an opaque type.
  - The reply content is taken as a string. The client may give None, and then `json.loads(None)` raises a TypeError that no `except` catches; that case is not modelled.
- NfrGenerator.Generator.Create: `GROQ_API_KEY` is imported from the `tdp_secrets` module when engine.py is imported. That module is not part of this model, and here the key is a parameter.
- The FastAPI routing and dependency injection of main.py are left out. The endpoints are methods over the store.
