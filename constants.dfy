/** The label and category vocabulary of the productivity metrics
    (agents/prod_metrics/constants.py). */
module Constants {

  const REVIEW_CATEGORIES: seq<string> :=
    ["Code Quality", "Documentation", "Debugging", "Performance", "Security", "Style", "Other"]

  /** No category is the empty string, so a category drawn from the list is
      never blank. */
  lemma CategoriesAreNonEmpty()
    ensures forall c :: c in REVIEW_CATEGORIES ==> |c| > 0
  {
    forall c | c in REVIEW_CATEGORIES
      ensures |c| > 0
    {
      var i :| 0 <= i < |REVIEW_CATEGORIES| && REVIEW_CATEGORIES[i] == c;
    }
  }

  const ACCEPTED: string := "accepted"
  const MODIFIED: string := "modified"
  const REJECTED: string := "rejected"
}
