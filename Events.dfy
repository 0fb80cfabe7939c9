/** The page's handlers as they act on the state and the dialog: rendering
    the current results, the search button and the Enter key, the clear
    button, and the delegated click on a recipe card. */
module Events {
  import opened Text
  import opened Decimal
  import opened Catalog
  import opened Filter
  import opened View
  import opened State
  import opened Modal

  /** What `applyFiltersAndRender` puts on the page: the cards shown, the
      results label and whether the empty-state message is visible. */
  datatype Page = Page(shown: seq<Recipe>, countLabel: string, emptyStateVisible: bool)

  /** The page drawn for a list of results. */
  function PageFor(results: seq<Recipe>): (p: Page)
    ensures p.shown == results
    ensures ParseInt(p.countLabel) == Decimal.Number(|results|)
    ensures p.emptyStateVisible <==> results == []
  {
    LabelReadsBack(|results|);
    Page(results, ResultsCountLabel(|results|), !EmptyStateHidden(|results| == 0))
  }

  /** `applyFiltersAndRender`: filters the catalog for the current state and
      draws the result; the state itself is not changed. */
  method ApplyFiltersAndRender(app: AppState) returns (page: Page)
    ensures page == PageFor(app.Results())
    ensures page.shown == Filtered(app.recipes, app.selectedIngredients, app.filters)
    ensures page.emptyStateVisible <==> page.shown == []
  {
    var filtered := app.FilterRecipes();
    page := PageFor(filtered);
  }

  /** The search button: the two inputs are read into the filters, then the
      results are drawn. */
  method OnSearch(app: AppState, maxTimeText: string, nameText: string) returns (page: Page)
    modifies app
    ensures app.filters == Filters(MaxTimeFromInput(maxTimeText), Trim(nameText))
    ensures app.selectedIngredients == old(app.selectedIngredients)
    ensures app.savedRecipeIds == old(app.savedRecipeIds)
    ensures page == PageFor(Filtered(app.recipes, app.selectedIngredients,
                                     Filters(MaxTimeFromInput(maxTimeText), Trim(nameText))))
  {
    app.SyncFiltersFromInputs(maxTimeText, nameText);
    page := ApplyFiltersAndRender(app);
  }

  /** A key pressed in either text input: Enter searches, as the button
      does; any other key changes nothing and draws nothing. */
  method OnInputKeyDown(app: AppState, key: string, maxTimeText: string, nameText: string) returns (page: Option<Page>)
    modifies app
    ensures key != "Enter" ==> page == None
    ensures key != "Enter" ==> app.filters == old(app.filters)
    ensures key == "Enter" ==> app.filters == Filters(MaxTimeFromInput(maxTimeText), Trim(nameText))
    ensures key == "Enter" ==> page == Some(PageFor(app.Results()))
    ensures app.selectedIngredients == old(app.selectedIngredients)
    ensures app.savedRecipeIds == old(app.savedRecipeIds)
  {
    if key == "Enter" {
      var p := OnSearch(app, maxTimeText, nameText);
      page := Some(p);
    } else {
      page := None;
    }
  }

  /** The clear button: the state is reset, both inputs are emptied, and the
      whole catalog is drawn in its order. The emptied inputs read back as the
      reset filters, so a later search without typing changes nothing. */
  method OnClear(app: AppState) returns (page: Page, maxTimeText: string, nameText: string)
    modifies app
    ensures app.selectedIngredients == {} && app.filters == NoFilters
    ensures app.savedRecipeIds == old(app.savedRecipeIds)
    ensures page == PageFor(app.recipes)
    ensures maxTimeText == "" && nameText == ""
    ensures Filters(MaxTimeFromInput(maxTimeText), Trim(nameText)) == app.filters
  {
    app.ClearFilters();
    maxTimeText, nameText := "", "";
    BlankMaxTimeIsNoBound(maxTimeText);
    TrimKeepsTrimmed(nameText);
    page := ApplyFiltersAndRender(app);
  }

  /** What a click on a card asks for: the `data-action` of the button hit. */
  datatype Dispatch = Ignored | ShowDetails(recipe: Recipe) | ToggleSaved(recipeId: string)

  /** The delegated click handler's decision: nothing outside a card, for an
      id the catalog does not hold, or for an action other than "details" or
      "save"; otherwise the recipe found (its first occurrence) is shown, or
      its id is saved or unsaved. */
  function CardClick(recipes: seq<Recipe>, cardId: Option<string>, action: string): (d: Dispatch)
    ensures cardId.None? ==> d == Ignored
    ensures d.ShowDetails? ==> action == "details" && cardId.Some? && d.recipe in recipes
                               && d.recipe.id == cardId.value
    ensures d.ToggleSaved? ==> action == "save" && cardId.Some? && d.recipeId == cardId.value
                               && exists r :: r in recipes && r.id == d.recipeId
    ensures d == Ignored <==> cardId.None? || (action != "details" && action != "save")
                              || (forall r :: r in recipes ==> r.id != cardId.value)
  {
    if cardId.None? then Ignored
    else
      match FindById(recipes, cardId.value)
      case None => Ignored
      case Some(recipe) =>
        if action == "details" then ShowDetails(recipe)
        else if action == "save" then ToggleSaved(cardId.value)
        else Ignored
  }

  /** The delegated click on the results grid: `cardId` is the id of the card
      the click landed in, if any, and `action` the clicked element's action. */
  method OnCardClick(app: AppState, modal: RecipeModal, cardId: Option<string>, action: string)
    returns (buttonText: Option<string>)
    modifies app, modal
    ensures app.selectedIngredients == old(app.selectedIngredients) && app.filters == old(app.filters)
    ensures match CardClick(app.recipes, cardId, action)
            case Ignored =>
              app.savedRecipeIds == old(app.savedRecipeIds) && modal.state == old(modal.state)
              && buttonText == None
            case ShowDetails(recipe) =>
              app.savedRecipeIds == old(app.savedRecipeIds) && modal.state == Open(recipe)
              && buttonText == None
            case ToggleSaved(id) =>
              app.savedRecipeIds == Toggled(old(app.savedRecipeIds), id) && modal.state == old(modal.state)
              && buttonText == Some(SaveButtonText(app.savedRecipeIds, id))
  {
    buttonText := None;
    if cardId.None? {
      return;
    }
    var recipe := FindById(app.recipes, cardId.value);
    if recipe.None? {
      return;
    }
    if action == "details" {
      modal.OpenRecipe(recipe.value);
    } else if action == "save" {
      var text := app.ToggleSaveRecipe(cardId.value);
      buttonText := Some(text);
    }
  }

  /** The chip labels `renderIngredientChips` draws, one per ingredient and
      in its order: the ingredient capitalized, which lower-cases back to the
      ingredient's own lower-case form. */
  function ChipLabels(ingredients: seq<string>): (labels: seq<string>)
    ensures |labels| == |ingredients|
    ensures forall i :: 0 <= i < |labels| ==> Lower(labels[i]) == Lower(ingredients[i])
    ensures forall i :: 0 <= i < |labels| ==> labels[i] == Capitalize(ingredients[i])
  {
    forall i | 0 <= i < |ingredients| ensures Lower(Capitalize(ingredients[i])) == Lower(ingredients[i]) {
      CapitalizePreservesLower(ingredients[i]);
    }
    seq(|ingredients|, i requires 0 <= i < |ingredients| => Capitalize(ingredients[i]))
  }

  /** `init`: a fresh state over the built-in catalog, a closed dialog, one
      chip per ingredient of the vocabulary, and the whole catalog drawn. */
  method Init() returns (app: AppState, modal: RecipeModal, chips: seq<string>, page: Page)
    ensures fresh(app) && fresh(modal)
    ensures app.recipes == MockRecipes && app.selectedIngredients == {} && app.savedRecipeIds == {}
    ensures app.filters == NoFilters && modal.state == Closed
    ensures chips == ChipLabels(AllIngredients)
    ensures page == PageFor(MockRecipes)
  {
    app := new AppState(MockRecipes);
    modal := new RecipeModal();
    chips := ChipLabels(AllIngredients);
    NoCriteriaKeepsAll(MockRecipes);
    page := ApplyFiltersAndRender(app);
  }
}
