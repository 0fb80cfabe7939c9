/** The recipe records, the built-in catalog, and the ingredient vocabulary
    derived from it (`ALL_INGREDIENTS`). */
module Catalog {
  import opened StringOrder

  datatype Nutrition = Nutrition(calories: int, protein: int, carbs: int, fats: int)

  datatype Recipe = Recipe(
    id: string,
    name: string,
    image: string,
    ingredients: seq<string>,
    instructions: string,
    cookTimeMinutes: int,
    servings: int,
    tags: seq<string>,
    nutrition: Nutrition)

  const ChickpeaCurry: Recipe :=
    Recipe("r1", "Spicy Chickpea Curry",
      "https://images.pexels.com/photos/1117862/pexels-photo-1117862.jpeg?auto=compress&cs=tinysrgb&w=800",
      ["chickpeas", "onion", "garlic", "tomato", "curry powder"],
      "Saute onions and garlic, add spices and tomatoes, then simmer with chickpeas until thick and fragrant.",
      30, 2, ["vegan", "high-protein", "one-pot"], Nutrition(420, 18, 55, 12))

  const MushroomPasta: Recipe :=
    Recipe("r2", "Creamy Mushroom Pasta",
      "https://images.pexels.com/photos/1279330/pexels-photo-1279330.jpeg?auto=compress&cs=tinysrgb&w=800",
      ["pasta", "mushroom", "garlic", "cream", "parmesan"],
      "Cook pasta, saute mushrooms with garlic, then add cream and cheese and toss with pasta.",
      25, 2, ["comfort", "quick"], Nutrition(650, 22, 70, 26))

  const QuinoaSalad: Recipe :=
    Recipe("r3", "Mediterranean Quinoa Salad",
      "https://images.pexels.com/photos/1437267/pexels-photo-1437267.jpeg?auto=compress&cs=tinysrgb&w=800",
      ["quinoa", "cucumber", "tomato", "feta", "olive oil"],
      "Cook quinoa, cool it, then toss with chopped veggies, feta, and olive oil dressing.",
      20, 3, ["salad", "light", "meal-prep"], Nutrition(350, 14, 45, 14))

  const ChickenBowl: Recipe :=
    Recipe("r4", "Grilled Chicken Bowl",
      "https://images.pexels.com/photos/4106483/pexels-photo-4106483.jpeg?auto=compress&cs=tinysrgb&w=800",
      ["chicken", "rice", "broccoli", "soy sauce", "garlic"],
      "Marinate chicken, grill it, and serve over rice with steamed broccoli and soy-garlic drizzle.",
      35, 1, ["high-protein", "meal-prep"], Nutrition(520, 40, 55, 12))

  const AvocadoToast: Recipe :=
    Recipe("r5", "Avocado Toast with Egg",
      "https://images.pexels.com/photos/5665662/pexels-photo-5665662.jpeg?auto=compress&cs=tinysrgb&w=800",
      ["bread", "avocado", "egg", "lemon", "chili flakes"],
      "Toast bread, mash avocado with lemon, spread, then top with fried or poached egg.",
      10, 1, ["breakfast", "quick"], Nutrition(320, 12, 28, 18))

  /** `MOCK_RECIPES`, the catalog the page starts from. */
  const MockRecipes: seq<Recipe> := [ChickpeaCurry, MushroomPasta, QuinoaSalad, ChickenBowl, AvocadoToast]

  /** Some recipe of `rs` lists ingredient `x`. */
  ghost predicate UsedIn(x: string, rs: seq<Recipe>) {
    exists i :: 0 <= i < |rs| && x in rs[i].ingredients
  }

  /** `recipes.flatMap((r) => r.ingredients)`. */
  function Flatten(rs: seq<Recipe>): (r: seq<string>)
    ensures forall x :: x in r <==> UsedIn(x, rs)
  {
    if rs == [] then []
    else
      var t := Flatten(rs[1..]);
      assert forall x :: UsedIn(x, rs) <==> x in rs[0].ingredients || UsedIn(x, rs[1..]) by {
        forall x ensures UsedIn(x, rs) <==> x in rs[0].ingredients || UsedIn(x, rs[1..]) {
          if UsedIn(x, rs[1..]) {
            var i :| 0 <= i < |rs[1..]| && x in rs[1..][i].ingredients;
            assert rs[i + 1] == rs[1..][i];
          }
          if x !in rs[0].ingredients && UsedIn(x, rs) {
            var i :| 0 <= i < |rs| && x in rs[i].ingredients;
            assert rs[1..][i - 1] == rs[i];
          }
        }
      }
      rs[0].ingredients + t
  }

  /** `Array.from(new Set(xs))`: each value of `xs` once. The order, which
      the sort that follows discards, is not stated. */
  function Dedup(xs: seq<string>): (r: seq<string>)
    ensures forall x :: x in r <==> x in xs
    ensures Distinct(r)
  {
    if xs == [] then []
    else
      var init, last := xs[..|xs| - 1], xs[|xs| - 1];
      var d := Dedup(init);
      assert xs == init + [last];
      if last in d then d
      else
        var r := d + [last];
        assert forall i :: 0 <= i < |d| ==> r[i] == d[i];
        r
  }

  /** The ingredient vocabulary of a catalog: distinct ingredients, sorted. */
  function Vocabulary(rs: seq<Recipe>): seq<string> {
    Sort(Dedup(Flatten(rs)))
  }

  /** The vocabulary lists every ingredient some recipe uses, nothing else,
      exactly once and in strictly increasing order. */
  lemma VocabularySpec(rs: seq<Recipe>)
    ensures var v := Vocabulary(rs);
            (forall x :: x in v <==> UsedIn(x, rs))
            && (forall i, j :: 0 <= i < j < |v| ==> Below(v[i], v[j]) && v[i] != v[j])
  {
    var d := Dedup(Flatten(rs));
    var v := Sort(d);
    forall x ensures x in v <==> x in d {
      assert x in v <==> x in multiset(v);
      assert x in d <==> x in multiset(d);
    }
  }

  datatype Option<T> = None | Some(value: T)

  /** `recipes.find((r) => r.id === id)`: the first recipe with that id, or
      nothing when no recipe has it. */
  function FindById(rs: seq<Recipe>, id: string): (found: Option<Recipe>)
    ensures found.None? <==> forall i :: 0 <= i < |rs| ==> rs[i].id != id
    ensures found.Some? ==> exists i :: 0 <= i < |rs| && rs[i] == found.value
                                        && forall j :: 0 <= j < i ==> rs[j].id != id
    ensures found.Some? ==> found.value.id == id
  {
    if rs == [] then None
    else if rs[0].id == id then Some(rs[0])
    else
      var found := FindById(rs[1..], id);
      assert forall i :: 1 <= i < |rs| ==> rs[i] == rs[1..][i - 1];
      if found.Some? then
        var i :| 0 <= i < |rs[1..]| && rs[1..][i] == found.value
                 && forall j :: 0 <= j < i ==> rs[1..][j].id != id;
        assert rs[i + 1] == found.value;
        found
      else found
  }

  /** `ALL_INGREDIENTS`, the chips offered to the user. */
  const AllIngredients: seq<string> := Vocabulary(MockRecipes)
}
