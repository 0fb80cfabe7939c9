/** The built-in catalog under the searches a user would try first. */
module Scenarios {
  import opened Text
  import opened Catalog
  import opened Filter

  /** One step of the filter: the first recipe's verdict, then the rest. */
  lemma FilteredCons(x: Recipe, rest: seq<Recipe>, selected: set<string>, filters: Filters)
    ensures Filtered([x] + rest, selected, filters)
            == Pick(x, selected, filters) + Filtered(rest, selected, filters)
  {
    assert ([x] + rest)[1..] == rest;
  }

  /** What the filter contributes for one recipe. */
  function Pick(r: Recipe, selected: set<string>, filters: Filters): seq<Recipe> {
    if Keeps(r, selected, filters) then [r] else []
  }

  /** A one-recipe catalog gives that recipe's verdict. */
  lemma FilteredSingle(x: Recipe, selected: set<string>, filters: Filters)
    ensures Filtered([x], selected, filters) == Pick(x, selected, filters)
  {
    assert [x][1..] == [];
  }

  /** The filter over a five-recipe catalog, one recipe at a time. */
  lemma FilteredFive(a: Recipe, b: Recipe, c: Recipe, d: Recipe, e: Recipe, selected: set<string>, filters: Filters)
    ensures Filtered([a, b, c, d, e], selected, filters)
            == Pick(a, selected, filters) + (Pick(b, selected, filters) + (Pick(c, selected, filters)
             + (Pick(d, selected, filters) + Pick(e, selected, filters))))
  {
    var de := [d] + [e];
    var cde := [c] + de;
    var bcde := [b] + cde;
    assert [a, b, c, d, e] == [a] + bcde;
    FilteredSingle(e, selected, filters);
    FilteredCons(d, [e], selected, filters);
    FilteredCons(c, de, selected, filters);
    FilteredCons(b, cde, selected, filters);
    FilteredCons(a, bcde, selected, filters);
  }

  /** The catalog through the filter, recipe by recipe. */
  lemma Steps(selected: set<string>, filters: Filters)
    ensures Filtered(MockRecipes, selected, filters)
            == Pick(ChickpeaCurry, selected, filters) + (Pick(MushroomPasta, selected, filters)
             + (Pick(QuinoaSalad, selected, filters) + (Pick(ChickenBowl, selected, filters)
             + Pick(AvocadoToast, selected, filters))))
  {
    FilteredFive(ChickpeaCurry, MushroomPasta, QuinoaSalad, ChickenBowl, AvocadoToast, selected, filters);
  }

  /** Which recipes of the catalog list garlic. */
  lemma GarlicIn()
    ensures "garlic" in ChickpeaCurry.ingredients && "garlic" in MushroomPasta.ingredients
    ensures "garlic" !in QuinoaSalad.ingredients && "garlic" in ChickenBowl.ingredients
    ensures "garlic" !in AvocadoToast.ingredients
  {
    assert ChickpeaCurry.ingredients[2] == "garlic";
    assert MushroomPasta.ingredients[2] == "garlic";
    assert ChickenBowl.ingredients[4] == "garlic";
  }

  /** With only "garlic" selected and no query, a recipe passes iff it lists
      garlic and is within the time bound. */
  lemma SelectGarlic(r: Recipe, f: Filters)
    requires f.nameQuery == ""
    ensures Keeps(r, {"garlic"}, f) <==> "garlic" in r.ingredients && WithinTime(r.cookTimeMinutes, f.maxTime)
  {
  }

  /** The garlic verdicts of the five recipes under a query-free filter. */
  lemma GarlicPicks(f: Filters)
    requires f.nameQuery == ""
    ensures Pick(ChickpeaCurry, {"garlic"}, f) == if WithinTime(30, f.maxTime) then [ChickpeaCurry] else []
    ensures Pick(MushroomPasta, {"garlic"}, f) == if WithinTime(25, f.maxTime) then [MushroomPasta] else []
    ensures Pick(QuinoaSalad, {"garlic"}, f) == []
    ensures Pick(ChickenBowl, {"garlic"}, f) == if WithinTime(35, f.maxTime) then [ChickenBowl] else []
    ensures Pick(AvocadoToast, {"garlic"}, f) == []
  {
    GarlicIn();
    SelectGarlic(ChickpeaCurry, f);
    SelectGarlic(MushroomPasta, f);
    SelectGarlic(QuinoaSalad, f);
    SelectGarlic(ChickenBowl, f);
    SelectGarlic(AvocadoToast, f);
  }

  /** Selecting "garlic" keeps the curry, the pasta and the chicken bowl: the
      quinoa salad and the avocado toast have no garlic. */
  lemma GarlicSelection()
    ensures Filtered(MockRecipes, {"garlic"}, NoFilters) == [ChickpeaCurry, MushroomPasta, ChickenBowl]
  {
    GarlicPicks(NoFilters);
    Steps({"garlic"}, NoFilters);
  }

  /** Bounding the time to 30 minutes then drops the chicken bowl (35). */
  lemma GarlicWithinThirtyMinutes()
    ensures Filtered(MockRecipes, {"garlic"}, Filters(Bound(30), "")) == [ChickpeaCurry, MushroomPasta]
  {
    GarlicPicks(Filters(Bound(30), ""));
    Steps({"garlic"}, Filters(Bound(30), ""));
  }

  lemma CurryNameMatches()
    ensures NameMatches("Spicy Chickpea Curry", "curry")
  {
    var name := Lower("Spicy Chickpea Curry");
    assert Lower("curry") == "curry";
    assert name[15..20] == "curry";
    assert OccursAt(name, "curry", 15);
    ContainsIff(name, "curry");
  }

  lemma PastaNameDoesNotMatch()
    ensures !NameMatches("Creamy Mushroom Pasta", "curry")
  {
    var raw := "Creamy Mushroom Pasta";
    var name := Lower(raw);
    assert Lower("curry") == "curry";
    assert name[1] == 'r';
    assert forall j | 1 <= j < |raw| :: raw[j] != 'c' && raw[j] != 'C';
    ContainsIff(name, "curry");
    forall i | 0 <= i <= |name| - 5 ensures !OccursAt(name, "curry", i) {
      assert name[i..i + 5][0] == name[i] && name[i..i + 5][1] == name[i + 1];
    }
  }

  /** The chickpea curry passes garlic, 30 minutes and "curry". */
  lemma CurryKept()
    ensures Keeps(ChickpeaCurry, {"garlic"}, Filters(Bound(30), "curry"))
  {
    GarlicIn();
    CurryNameMatches();
  }

  /** The pasta fails on its name. */
  lemma PastaDropped()
    ensures !Keeps(MushroomPasta, {"garlic"}, Filters(Bound(30), "curry"))
  {
    PastaNameDoesNotMatch();
  }

  /** The bowl fails on its time, the salad and the toast on garlic. */
  lemma OthersDropped()
    ensures var f := Filters(Bound(30), "curry");
            !Keeps(QuinoaSalad, {"garlic"}, f) && !Keeps(ChickenBowl, {"garlic"}, f)
            && !Keeps(AvocadoToast, {"garlic"}, f)
  {
    GarlicIn();
  }

  /** Adding the query "curry" leaves the chickpea curry alone. */
  lemma GarlicCurry()
    ensures Filtered(MockRecipes, {"garlic"}, Filters(Bound(30), "curry")) == [ChickpeaCurry]
  {
    CurryKept();
    PastaDropped();
    OthersDropped();
    var f := Filters(Bound(30), "curry");
    assert Pick(ChickpeaCurry, {"garlic"}, f) == [ChickpeaCurry];
    assert Pick(MushroomPasta, {"garlic"}, f) == [] && Pick(QuinoaSalad, {"garlic"}, f) == [];
    assert Pick(ChickenBowl, {"garlic"}, f) == [] && Pick(AvocadoToast, {"garlic"}, f) == [];
    Steps({"garlic"}, Filters(Bound(30), "curry"));
  }
}
