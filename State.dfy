/** The page's single mutable `state` object and the handlers that change it:
    the ingredient chips, the save buttons, the clear button and the reading
    of the two filter inputs. */
module State {
  import opened Text
  import opened Decimal
  import opened Catalog
  import opened Filter

  /** A set with the membership of `x` flipped, as `has`/`delete`/`add` do. */
  function Toggled<T>(s: set<T>, x: T): set<T> {
    if x in s then s - {x} else s + {x}
  }

  /** Toggling flips the membership of exactly the given element. */
  lemma ToggledMembership<T>(s: set<T>, x: T, y: T)
    ensures y in Toggled(s, x) <==> (if y == x then y !in s else y in s)
  {
  }

  /** Toggling twice restores the set. */
  lemma ToggleTwice<T>(s: set<T>, x: T)
    ensures Toggled(Toggled(s, x), x) == s
  {
  }

  /** The text of a recipe's save button after a click: "Saved" for a saved
      recipe, "Save" otherwise. */
  function SaveButtonText(saved: set<string>, recipeId: string): (text: string)
    ensures text == "Saved" <==> recipeId in saved
    ensures text == "Saved" || text == "Save"
  {
    if recipeId in saved then "Saved" else "Save"
  }

  /** The max-time field as `syncFiltersFromInputs` reads it: blank after
      trimming means no bound, anything else goes through `parseInt`. */
  function MaxTimeFromInput(text: string): MaxTime {
    var value := Trim(text);
    if value == "" then NoBound
    else match ParseInt(value)
      case Number(n) => Bound(n)
      case NaN => NotANumber
  }

  /** A field holding only white space sets no bound. */
  lemma BlankMaxTimeIsNoBound(text: string)
    requires AllWhiteSpace(text)
    ensures MaxTimeFromInput(text) == NoBound
  {
    assert text + "" + "" == text;
    TrimUnique(text, "", "");
  }

  /** A number typed with any surrounding white space becomes that bound. */
  lemma TypedMaxTimeIsBound(before: string, n: int, after: string)
    requires AllWhiteSpace(before) && AllWhiteSpace(after)
    ensures MaxTimeFromInput(before + ShowInt(n) + after) == Bound(n)
  {
    var numeral := ShowInt(n);
    assert numeral[|numeral| - 1] == ShowNat(if n < 0 then -n else n)[|ShowNat(if n < 0 then -n else n)| - 1];
    TrimUnique(before, numeral, after);
    ParseIntShowInt(n);
  }

  /** Text that, once trimmed, starts with neither a digit nor a sign is not
      a number, and such a bound excludes nothing. */
  lemma LettersMaxTimeExcludesNothing(text: string, rs: seq<Recipe>, selected: set<string>, query: string)
    requires var v := Trim(text); v != [] && !IsDigit(v[0]) && v[0] != '-' && v[0] != '+'
    ensures MaxTimeFromInput(text) == NotANumber
    ensures Filtered(rs, selected, Filters(MaxTimeFromInput(text), query)) == Filtered(rs, selected, Filters(NoBound, query))
  {
    ParseIntNonNumeric(Trim(text));
    NotANumberExcludesNothing(rs, selected, query);
  }

  /** `state`: the selection, the saved recipes, the filters and the catalog. */
  class AppState {
    var selectedIngredients: set<string>
    var savedRecipeIds: set<string>
    var filters: Filters
    const recipes: seq<Recipe>

    /** The state the page starts in: nothing selected or saved, no filters. */
    constructor (catalog: seq<Recipe>)
      ensures selectedIngredients == {} && savedRecipeIds == {}
      ensures filters == NoFilters && recipes == catalog
    {
      selectedIngredients := {};
      savedRecipeIds := {};
      filters := NoFilters;
      recipes := catalog;
    }

    /** What `filterRecipes` gives for the current state. */
    function Results(): seq<Recipe>
      reads this
    {
      Filtered(recipes, selectedIngredients, filters)
    }

    /** `filterRecipes`. */
    method FilterRecipes() returns (result: seq<Recipe>)
      ensures result == Results()
      ensures forall r :: r in result <==> r in recipes && Keeps(r, selectedIngredients, filters)
      ensures IsSubsequence(result, recipes)
    {
      result := Filter.FilterRecipes(recipes, selectedIngredients, filters);
      forall r ensures r in result <==> r in recipes && Keeps(r, selectedIngredients, filters) {
        FilteredMembership(recipes, selectedIngredients, filters, r);
      }
      FilteredIsSubsequence(recipes, selectedIngredients, filters);
    }

    /** `toggleIngredientSelection`: flips one ingredient and reports whether
        its chip is now marked selected; the filters, the saved set and the
        shown cards wait for the next search. */
    method ToggleIngredientSelection(ingredient: string) returns (chipSelected: bool)
      modifies this
      ensures selectedIngredients == Toggled(old(selectedIngredients), ingredient)
      ensures savedRecipeIds == old(savedRecipeIds) && filters == old(filters)
      ensures chipSelected <==> ingredient in selectedIngredients
      ensures chipSelected <==> ingredient !in old(selectedIngredients)
    {
      if ingredient in selectedIngredients {
        selectedIngredients := selectedIngredients - {ingredient};
        chipSelected := false;
      } else {
        selectedIngredients := selectedIngredients + {ingredient};
        chipSelected := true;
      }
    }

    /** `toggleSaveRecipe`: flips one recipe id in the saved set and gives
        the button's new text; what the filter keeps does not depend on it. */
    method ToggleSaveRecipe(recipeId: string) returns (buttonText: string)
      modifies this
      ensures savedRecipeIds == Toggled(old(savedRecipeIds), recipeId)
      ensures selectedIngredients == old(selectedIngredients) && filters == old(filters)
      ensures Results() == old(Results())
      ensures buttonText == SaveButtonText(savedRecipeIds, recipeId)
      ensures buttonText == "Saved" <==> recipeId !in old(savedRecipeIds)
    {
      if recipeId in savedRecipeIds {
        savedRecipeIds := savedRecipeIds - {recipeId};
        buttonText := "Save";
      } else {
        savedRecipeIds := savedRecipeIds + {recipeId};
        buttonText := "Saved";
      }
    }

    /** The clear button: empties the selection and resets both filters,
        leaving the saved set alone; the whole catalog is then shown. */
    method ClearFilters()
      modifies this
      ensures selectedIngredients == {} && filters == NoFilters
      ensures savedRecipeIds == old(savedRecipeIds)
      ensures Results() == recipes
    {
      selectedIngredients := {};
      filters := filters.(maxTime := NoBound);
      filters := filters.(nameQuery := "");
      NoCriteriaKeepsAll(recipes);
    }

    /** `syncFiltersFromInputs`: the trimmed max-time text through
        `parseInt` (blank means no bound) and the trimmed name text. */
    method SyncFiltersFromInputs(maxTimeValue: string, nameQueryValue: string)
      modifies this
      ensures filters == Filters(MaxTimeFromInput(maxTimeValue), Trim(nameQueryValue))
      ensures selectedIngredients == old(selectedIngredients) && savedRecipeIds == old(savedRecipeIds)
    {
      var maxTime := MaxTimeFromInput(maxTimeValue);
      var nameQuery := Trim(nameQueryValue);
      filters := Filters(maxTime, nameQuery);
    }
  }
}
