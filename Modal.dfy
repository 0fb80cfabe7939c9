/** The recipe details dialog, tracked as which recipe it shows rather than
    as the `hidden` class on its element. */
module Modal {
  import opened Catalog

  datatype ModalState = Closed | Open(recipe: Recipe)

  /** What the document's key handler does to the dialog: Escape closes it
      when it is open; every other key, and Escape on a closed dialog, leaves
      it as it is. */
  function AfterKeyDown(m: ModalState, key: string): ModalState {
    if key == "Escape" && m.Open? then Closed else m
  }

  /** Escape always leaves the dialog closed, whatever its state. */
  lemma EscapeCloses(m: ModalState)
    ensures AfterKeyDown(m, "Escape") == Closed
  {
  }

  /** Any other key changes nothing. */
  lemma OtherKeysIgnored(m: ModalState, key: string)
    requires key != "Escape"
    ensures AfterKeyDown(m, key) == m
  {
  }

  /** Pressing the same key again has no further effect. */
  lemma KeyDownIdempotent(m: ModalState, key: string)
    ensures AfterKeyDown(AfterKeyDown(m, key), key) == AfterKeyDown(m, key)
  {
  }

  /** The `#recipe-modal` element and its content. */
  class RecipeModal {
    var state: ModalState

    /** The dialog starts hidden. */
    constructor ()
      ensures state == Closed
    {
      state := Closed;
    }

    /** `openRecipeModal`: the content is replaced by the given recipe, also
        when another recipe was already shown. */
    method OpenRecipe(recipe: Recipe)
      modifies this
      ensures state == Open(recipe)
    {
      state := Open(recipe);
    }

    /** `closeRecipeModal`, bound to the backdrop and the close button. */
    method Close()
      modifies this
      ensures state == Closed
    {
      state := Closed;
    }

    /** The document's `keydown` listener. */
    method OnKeyDown(key: string)
      modifies this
      ensures state == AfterKeyDown(old(state), key)
    {
      if key == "Escape" && state.Open? {
        Close();
      }
    }
  }
}
