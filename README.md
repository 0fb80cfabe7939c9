# Recipe finder: a verified model of the filtering core

The recipe finder is a single-page browser app. It has a built-in catalog of
five recipes and lets the user do four things:
- select ingredients from a row of chips;
- bound the cooking time and type a name query;
- save recipes;
- open a recipe in a details dialog.

All of `app.js` except the DOM work is modelled here:
- the page's `state` object;
- the filter that picks the recipes to show;
- the handlers that change the state;
- the ingredient vocabulary (`ALL_INGREDIENTS`);
- the HTML escaper and `capitalize`;
- the results label and the empty-state indicator;
- the details dialog, reduced to which recipe it shows;
- the delegated card-click dispatch.

Modules, from the bottom up:

- `Text`: ECMAScript `trim`, ASCII case mapping, `includes` and `capitalize`.
- `Decimal`: numerals as template literals print them, and the `parseInt`
  prefix parser the max-time field relies on.
- `Html`: `escapeHtml`, with a per-character reference encoder and a decoder.
- `StringOrder`: the default `sort` order on strings and an insertion sort by it.
- `Catalog`: recipe records, `MOCK_RECIPES`, the ingredient vocabulary and
  lookup by id.
- `Filter`: the three tests of `filterRecipes` and the loop that applies them.
  Also proves what the output is (an order-preserving subsequence, with exact
  membership and multiplicity) and how it moves when a criterion changes.
- `View`: the results-count label and the empty-state flag.
- `State`: the `state` object as a class. It has two mutable sets and the
  filters, and methods for the toggles, the clear button and the reading of
  the inputs.
- `Modal`: the details dialog as `Closed | Open(recipe)`, and its key handler.
- `Events`: the handlers as they combine the above: render, search, Enter,
  clear, card click and `init`.
- `Scenarios`: the built-in catalog under a garlic / 30-minute / "curry" search.

The `MaxTime` filter value is `NoBound` (the source's `null`), `Bound(n)` or
`NotANumber`. `NotANumber` is what `Number.parseInt` gives when no digit follows
the optional sign (as in "x5", "-" or "--5"). A NaN bound is still of type number, but `cookTimeMinutes > NaN` is
false, so it excludes nothing. The model states this, and proves that such a
bound behaves exactly like no bound.

In the built-in catalog, garlic appears in r1, r2 and r4 only: neither the
quinoa salad nor the avocado toast lists it. Selecting "garlic" therefore
keeps those three recipes, a 30-minute bound then keeps r1 and r2, and the
query "curry" then keeps r1 alone (`Scenarios.GarlicSelection`,
`Scenarios.GarlicWithinThirtyMinutes`, `Scenarios.GarlicCurry`).

## Model

| member | source | states |
|---|---|---|
| Text.Trim | app.js:381-385 | as written (leading then trailing white space removed); the result neither starts nor ends with white space, and `TrimCutsWhiteSpace`, `TrimUnique` and `TrimIdempotent` state the rest |
| Text.TrimCutsWhiteSpace | app.js:381-385 | `trim` removes only white space, and only from the two ends: the result is a slice of the input with white space on both sides |
| Text.TrimUnique | app.js:381-385 | any white space around a core that neither starts nor ends with white space is exactly what `trim` strips, so the core comes back |
| Text.TrimIdempotent | app.js:381-385 | trimming an already trimmed input changes nothing |
| Text.Lower | app.js:196-197 | as written, ASCII only; its effect on queries is stated by `Filter.CaseInsensitiveQuery` |
| Text.Contains | app.js:197 | as written, a left-to-right search; `ContainsIff` states when it succeeds |
| Text.ContainsIff | app.js:197 | the left-to-right `includes` search succeeds exactly when the query occurs at some offset of the name |
| Text.Capitalize | app.js:402-404 | as written; `CapitalizePreservesLower` and `CapitalizeIdempotent` state its properties |
| Text.CapitalizePreservesLower | app.js:402-404 | `capitalize` keeps the length and the tail, leaves no lower-case letter first, and lower-cases back to the input's lower-case form; together these fix the result completely |
| Text.CapitalizeIdempotent | app.js:402-404 | capitalising twice is capitalising once |
| Decimal.ShowNat | app.js:268 | a count is printed as a non-empty run of decimal digits without a leading zero |
| Decimal.ParseInt | app.js:383 | as written (leading white space, optional sign, leading digits, NaN when no digit follows the sign); the `ParseInt...` lemmas below state its properties |
| Decimal.ParseIntShowInt | app.js:383 | `parseInt` reads every printed integer back, including negative ones |
| Decimal.ParseIntShowNat | app.js:383 | a numeral followed by text that does not start with a digit parses to the numeral's value, so trailing text is ignored |
| Decimal.ParseIntMinus | app.js:383 | a minus sign before a numeral parses to the negated value |
| Decimal.ParseIntNonNumeric | app.js:383 | text starting with neither white space, a sign nor a digit is NaN |
| Html.EscapeHtml | app.js:406-413 | as written, five chained global replacements with `&` first; the lemmas below state what it computes |
| Html.EscapeHtmlIsPerCharacter | app.js:406-413 | because `&` is replaced first, the five chained replacements equal the independent per-character entity map |
| Html.EscapeHtmlSafe | app.js:406-413 | the escaped text holds no raw `"`, `'`, `<` or `>` |
| Html.EscapeHtmlIdentity | app.js:406-413 | text without any of the five special characters is unchanged |
| Html.UnescapeEscapeHtml | app.js:406-413 | escaping loses nothing: decoding the five entities gives back the original, so different texts escape differently |
| StringOrder.BelowTotal | app.js:99 | any two strings are comparable in the default sort order |
| StringOrder.BelowAntisymmetric | app.js:99 | strings that sort no later than each other are equal |
| StringOrder.BelowTransitive | app.js:99 | the default sort order is transitive |
| StringOrder.Sort | app.js:99 | the sorted list is a permutation of its input, is ordered, and stays duplicate-free when the input was |
| Catalog.Flatten | app.js:98 | `flatMap` over the recipes yields exactly the ingredients some recipe lists |
| Catalog.Dedup | app.js:97-98 | `Array.from(new Set(...))` keeps every value and has no duplicates |
| Catalog.Vocabulary | app.js:97-99 | as written (`flatMap`, `Set` round trip, `sort`); `ALL_INGREDIENTS` is the constant `Catalog.AllIngredients`, the vocabulary of the built-in catalog; `VocabularySpec` states its properties |
| Catalog.VocabularySpec | app.js:97-99 | `ALL_INGREDIENTS` lists every ingredient of some recipe and nothing else, each once, in strictly increasing order |
| Catalog.FindById | app.js:357 | `find` gives nothing iff no recipe has the id; otherwise it gives the first recipe with that id |
| Filter.Keeps | app.js:178-203 | as written, the ingredient, time and name tests combined by AND; `KeepRecipe` is proved to compute it |
| Filter.Filtered | app.js:174-204 | as written, the passing recipes in catalog order; `FilterRecipes` is proved to compute it and the lemmas below state its properties |
| Filter.ContainsAllSelected | app.js:180-187 | the loop over the selection, with its early exit, answers whether every selected ingredient is among the recipe's ingredients |
| Filter.KeepRecipe | app.js:178-203 | the filter callback keeps a recipe exactly when the ingredient, time and name tests all pass |
| Filter.FilterRecipes | app.js:174-204 | the scan returns the passing recipes of the catalog, in catalog order |
| Filter.FilteredAtKeptPositions | app.js:178-203 | the output is the catalog at increasing positions, and a position is used iff its recipe passes |
| Filter.FilteredIsSubsequence | app.js:178-203 | the output is an order-preserving subsequence of the catalog |
| Filter.FilteredCount | app.js:178-203 | a passing recipe occurs in the output as often as in the catalog, a failing one never: nothing is duplicated or invented |
| Filter.FilteredMembership | app.js:178-203 | a recipe is shown iff it is in the catalog and passes all three tests |
| Filter.FilterOfFiltered | app.js:178-203 | filtering by stricter criteria equals filtering the output of looser criteria again |
| Filter.Narrower | app.js:178-203 | the output under stricter criteria is a subsequence of the output under looser ones |
| Filter.SelectingNarrows | app.js:180-187 | selecting one more ingredient can only remove recipes, never add or reorder |
| Filter.TighteningTimeNarrows | app.js:190-192 | introducing or lowering a numeric time bound can only remove recipes |
| Filter.ClearingQueryWidens | app.js:195-200 | dropping the name query can only add recipes |
| Filter.NoCriteriaKeepsAll | app.js:178-203 | with nothing selected, no bound and no query, the whole catalog is shown in its order |
| Filter.SameTestsSameOutput | app.js:178-203 | criteria that accept the same recipes give the same output |
| Filter.CaseInsensitiveQuery | app.js:195-199 | queries that lower-case to the same text select the same recipes |
| Filter.PastaAnyCase | app.js:195-199 | "PASTA" and "pasta" give the same result |
| Filter.NotANumberExcludesNothing | app.js:190-192 | a NaN bound gives the same output as no bound |
| View.ResultsCountLabel | app.js:267-271 | as written; `SingularIffOne`, `LabelReadsBack` and `LabelInjective` state its properties |
| View.EmptyStateHidden | app.js:273-275 | as written; `EmptyStateMatchesLabel` ties it to the label |
| View.SingularIffOne | app.js:267-271 | the label uses "recipe" (singular) exactly when the count is 1 |
| View.LabelReadsBack | app.js:267-271 | the label starts with the count, and `parseInt` reads the count back from it |
| View.LabelInjective | app.js:267-271 | different counts give different labels |
| View.EmptyStateMatchesLabel | app.js:267-275 | the empty-state indicator is visible exactly when the label reads "0 recipes found" |
| State.Toggled | app.js:156-164 | as written (`has`, then `delete` or `add`); `ToggledMembership` and `ToggleTwice` state its properties |
| State.ToggledMembership | app.js:156-164 | a toggle flips the membership of exactly the given element |
| State.ToggleTwice | app.js:156-164 | toggling the same element twice restores the set |
| State.SaveButtonText | app.js:252-256 | a save button reads "Saved" exactly when its recipe is saved, otherwise "Save" |
| State.MaxTimeFromInput | app.js:381-383 | as written; `BlankMaxTimeIsNoBound`, `TypedMaxTimeIsBound` and `LettersMaxTimeExcludesNothing` state its properties |
| State.BlankMaxTimeIsNoBound | app.js:381-383 | a max-time input holding only white space sets no bound |
| State.TypedMaxTimeIsBound | app.js:381-383 | an integer typed with any surrounding white space becomes that bound |
| State.LettersMaxTimeExcludesNothing | app.js:381-383 | trimmed text that starts with neither a digit nor a sign is NaN, and the output is the one without a bound |
| State.AppState.constructor | app.js:102-110 | the page starts with nothing selected or saved, no bound, an empty query and the given catalog |
| State.AppState.FilterRecipes | app.js:174-204 | `filterRecipes` on the current state: the passing recipes in order, as a subsequence of the catalog |
| State.AppState.ToggleIngredientSelection | app.js:156-164 | flips one ingredient in the selection and reports the chip's new mark; the saved set and the filters are unchanged |
| State.AppState.ToggleSaveRecipe | app.js:389-399 | flips one id in the saved set and gives the button's new text; the selection, the filters and the filter output are unchanged |
| State.AppState.ClearFilters | app.js:324-326 | the selection is emptied, bound and query are reset, the saved set is kept, and the whole catalog then passes |
| State.AppState.SyncFiltersFromInputs | app.js:380-387 | the bound comes from the trimmed max-time text (blank means none) and the query is the trimmed name text; the two sets are unchanged |
| Modal.AfterKeyDown | app.js:373-377 | as written; `EscapeCloses`, `OtherKeysIgnored` and `KeyDownIdempotent` state its properties |
| Modal.EscapeCloses | app.js:373-377 | Escape leaves the dialog closed whatever its state |
| Modal.OtherKeysIgnored | app.js:373-377 | any other key leaves the dialog as it is |
| Modal.KeyDownIdempotent | app.js:373-377 | pressing the same key again has no further effect |
| Modal.RecipeModal.constructor | app.js:123-126 | the dialog element starts closed; that comes from the page markup (see Left out) |
| Modal.RecipeModal.OpenRecipe | app.js:278-308 | the dialog shows the given recipe, also when another one was open |
| Modal.RecipeModal.Close | app.js:310-312 | the dialog is closed |
| Modal.RecipeModal.OnKeyDown | app.js:373-377 | the key handler changes the dialog as its specification function says |
| Events.PageFor | app.js:167-172 | the drawn page shows the results, its label reads back their number, and the empty state shows iff there are none |
| Events.ApplyFiltersAndRender | app.js:167-172 | the page is drawn from the filter output of the current state |
| Events.OnSearch | app.js:317-320 | the search reads both inputs into the filters and draws the recipes that pass them; the sets are unchanged |
| Events.OnInputKeyDown | app.js:339-346 | Enter searches as the button does; any other key changes and draws nothing |
| Events.OnClear | app.js:323-336 | the state is reset, the inputs are emptied, the whole catalog is drawn, and the emptied inputs read back as the reset filters |
| Events.CardClick | app.js:349-366 | a click is ignored iff it is outside a card, its id is unknown, or its action is neither "details" nor "save"; otherwise it opens the found recipe or toggles that id |
| Events.OnCardClick | app.js:349-366 | the click handler changes the dialog or the saved set exactly as the dispatch decides, and nothing else |
| Events.ChipLabels | app.js:139-144 | one capitalised label per ingredient, in order, each lower-casing to its ingredient's lower-case form |
| Events.Init | app.js:129-133 | start-up gives the initial state over the built-in catalog, a closed dialog, a chip per vocabulary entry, and the whole catalog drawn |
| Scenarios.GarlicSelection | app.js:3-94 | selecting "garlic" keeps the chickpea curry, the mushroom pasta and the chicken bowl, in that order |
| Scenarios.GarlicWithinThirtyMinutes | app.js:3-94 | adding a 30-minute bound keeps the curry and the pasta |
| Scenarios.GarlicCurry | app.js:3-94 | adding the query "curry" keeps the chickpea curry alone |

## Left out

- DOM access and rendering are not modelled. This covers element lookup,
  the card and dialog markup built by `renderRecipes` and `openRecipeModal`,
  the chip elements and the CSS class toggles. What these show is reduced to
  the returned `Page`, the chip labels and marks, the save button's text and
  the dialog's `Open(recipe)` state.
- Event-listener wiring is not modelled, except that handlers become methods.
  The click target's `instanceof HTMLElement` and `closest(".recipe-card")`
  checks become the `cardId: Option<string>` parameter. A missing
  `data-action` is any string other than "details" or "save".
- Case mapping is ASCII only. `toLowerCase` and `toUpperCase` follow Unicode
  and the locale, which the model does not capture.
- `sort` compares UTF-16 code units and `charAt(0)` takes one code unit. The
  model compares and splits Unicode scalar values. The two agree on
  Basic Multilingual Plane text, which includes the whole catalog.
- `Number.parseInt` returns a floating-point number. Its precision limit on
  very long numerals, and `-0`, are not modelled: the model's integers are
  unbounded. NaN is the separate value `NotANumber`.
- `escapeHtml`'s `String(str)` conversion is not modelled; every caller
  passes a string.
- The image URLs, servings and nutrition figures are stored in the recipes
  but never computed on.
- The dialog starting closed comes from the page markup, and index.html is
  not part of this model. `Modal.RecipeModal.constructor` assumes it.
- The copy `[...MOCK_RECIPES]` becomes a `const recipes` field, because
  nothing reassigns or mutates `state.recipes`.
