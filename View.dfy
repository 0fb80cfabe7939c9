/** What the page shows about a filtered list besides the cards: the results
    count label and the empty-state indicator. */
module View {
  import opened Decimal

  /** `updateResultsCount`: "1 recipe found", otherwise "N recipes found". */
  function ResultsCountLabel(count: nat): string {
    ShowNat(count) + " recipe" + (if count == 1 then "" else "s") + " found"
  }

  /** `handleEmptyState`: the indicator carries the `hidden` class unless the
      list is empty. */
  function EmptyStateHidden(isEmpty: bool): bool {
    !isEmpty
  }

  /** The singular form is used for exactly one recipe. */
  lemma SingularIffOne(count: nat)
    ensures ResultsCountLabel(count) == ShowNat(count) + " recipe found" <==> count == 1
  {
    if count != 1 {
      assert |ResultsCountLabel(count)| == |ShowNat(count) + " recipe found"| + 1;
    }
  }

  /** The label starts with the count itself: `parseInt` reads it back. */
  lemma LabelReadsBack(count: nat)
    ensures ParseInt(ResultsCountLabel(count)) == Number(count)
  {
    var rest := " recipe" + (if count == 1 then "" else "s") + " found";
    assert ResultsCountLabel(count) == ShowNat(count) + rest;
    ParseIntShowNat(count, rest);
  }

  /** Different counts give different labels. */
  lemma LabelInjective(a: nat, b: nat)
    requires ResultsCountLabel(a) == ResultsCountLabel(b)
    ensures a == b
  {
    LabelReadsBack(a);
    LabelReadsBack(b);
  }

  /** The empty-state indicator is visible exactly when the label reads
      "0 recipes found". */
  lemma EmptyStateMatchesLabel(count: nat)
    ensures !EmptyStateHidden(count == 0) <==> ResultsCountLabel(count) == "0 recipes found"
  {
    if ResultsCountLabel(count) == "0 recipes found" {
      LabelInjective(count, 0);
    }
  }
}
