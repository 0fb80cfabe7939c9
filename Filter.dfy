/** The filter engine: which recipes of the catalog `filterRecipes` keeps for
    the current ingredient selection and filters, and in what order. */
module Filter {
  import opened Text
  import opened Catalog

  /** `state.filters.maxTime`: `null` (no bound), a number, or the NaN that
      `parseInt` gives when no digit follows the optional sign. */
  datatype MaxTime = NoBound | Bound(minutes: int) | NotANumber

  /** `state.filters`. */
  datatype Filters = Filters(maxTime: MaxTime, nameQuery: string)

  /** The filters the page starts with and the clear button restores. */
  const NoFilters: Filters := Filters(NoBound, "")

  /** Every selected ingredient is among the recipe's ingredients. */
  predicate HasAllSelected(selected: set<string>, ingredients: seq<string>) {
    forall ing :: ing in selected ==> ing in ingredients
  }

  /** The time test: only a numeric bound can exclude a recipe, because a
      comparison with NaN is false. */
  predicate WithinTime(cookTimeMinutes: int, maxTime: MaxTime) {
    match maxTime
    case Bound(t) => cookTimeMinutes <= t
    case NoBound => true
    case NotANumber => true
  }

  /** The name test: an empty query matches every name; otherwise the
      lower-cased name must contain the lower-cased query. */
  predicate NameMatches(name: string, query: string) {
    query == "" || Contains(Lower(name), Lower(query))
  }

  /** The three tests of `filterRecipes`, combined by AND. */
  predicate Keeps(r: Recipe, selected: set<string>, filters: Filters) {
    && HasAllSelected(selected, r.ingredients)
    && WithinTime(r.cookTimeMinutes, filters.maxTime)
    && NameMatches(r.name, filters.nameQuery)
  }

  /** The recipes of `rs` that pass, in catalog order. */
  function Filtered(rs: seq<Recipe>, selected: set<string>, filters: Filters): seq<Recipe> {
    if rs == [] then []
    else (if Keeps(rs[0], selected, filters) then [rs[0]] else [])
         + Filtered(rs[1..], selected, filters)
  }

  /** The ingredient test of the `filter` callback: a loop over the selection
      that gives up at the first ingredient the recipe lacks. */
  method ContainsAllSelected(selected: set<string>, ingredients: seq<string>) returns (ok: bool)
    ensures ok == HasAllSelected(selected, ingredients)
  {
    if |selected| > 0 {
      var ingredientSet := set i | i in ingredients;
      var rest := selected;
      while rest != {}
        invariant rest <= selected
        invariant forall ing :: ing in selected && ing !in rest ==> ing in ingredients
        decreases |rest|
      {
        var ing :| ing in rest;
        if ing !in ingredientSet {
          return false;
        }
        rest := rest - {ing};
      }
    }
    return true;
  }

  /** The `filter` callback: checks the three tests in the source's order. */
  method KeepRecipe(r: Recipe, selected: set<string>, filters: Filters) returns (keep: bool)
    ensures keep == Keeps(r, selected, filters)
  {
    var hasAll := ContainsAllSelected(selected, r.ingredients);
    if !hasAll {
      return false;
    }
    if filters.maxTime.Bound? {
      if r.cookTimeMinutes > filters.maxTime.minutes {
        return false;
      }
    }
    if filters.nameQuery != "" {
      var normalizedName := Lower(r.name);
      if !Contains(normalizedName, Lower(filters.nameQuery)) {
        return false;
      }
    }
    return true;
  }

  lemma {:induction false} FilteredAppend(a: seq<Recipe>, b: seq<Recipe>, selected: set<string>, filters: Filters)
    ensures Filtered(a + b, selected, filters) == Filtered(a, selected, filters) + Filtered(b, selected, filters)
  {
    if a == [] {
      assert a + b == b;
    } else {
      assert (a + b)[1..] == a[1..] + b;
      FilteredAppend(a[1..], b, selected, filters);
    }
  }

  /** `filterRecipes`: `recipes.filter(callback)`. */
  method FilterRecipes(rs: seq<Recipe>, selected: set<string>, filters: Filters) returns (result: seq<Recipe>)
    ensures result == Filtered(rs, selected, filters)
  {
    result := [];
    for i := 0 to |rs|
      invariant result == Filtered(rs[..i], selected, filters)
    {
      var keep := KeepRecipe(rs[i], selected, filters);
      assert rs[..i + 1] == rs[..i] + [rs[i]];
      FilteredAppend(rs[..i], [rs[i]], selected, filters);
      if keep {
        result := result + [rs[i]];
      }
    }
    assert rs[..|rs|] == rs;
  }

  // ----- What the output is -----

  /** Adds one to every position. */
  function Shift(p: seq<nat>): (q: seq<nat>)
    ensures |q| == |p| && forall k :: 0 <= k < |p| ==> q[k] == p[k] + 1
  {
    seq(|p|, k requires 0 <= k < |p| => p[k] + 1)
  }

  /** The positions in `rs` of the recipes that pass, in increasing order. */
  function KeptPositions(rs: seq<Recipe>, selected: set<string>, filters: Filters): seq<nat> {
    if rs == [] then []
    else (if Keeps(rs[0], selected, filters) then [0] else [])
         + Shift(KeptPositions(rs[1..], selected, filters))
  }

  /** `p` lists increasing positions of `ys` at which `xs` is found. */
  ghost predicate Embeds(p: seq<nat>, xs: seq<Recipe>, ys: seq<Recipe>) {
    && |p| == |xs|
    && (forall k :: 0 <= k < |p| ==> p[k] < |ys| && xs[k] == ys[p[k]])
    && (forall k, l :: 0 <= k < l < |p| ==> p[k] < p[l])
  }

  /** `xs` is `ys` with some elements left out and the rest in their order. */
  ghost predicate IsSubsequence(xs: seq<Recipe>, ys: seq<Recipe>) {
    exists p :: Embeds(p, xs, ys)
  }

  /** Putting `x` in front of `ys` shifts an embedding; when `x` is also
      put in front of `xs`, position 0 is added for it. */
  lemma EmbedsCons(p: seq<nat>, xs: seq<Recipe>, ys: seq<Recipe>, x: Recipe, keep: bool)
    requires Embeds(p, xs, ys)
    ensures Embeds((if keep then [0] else []) + Shift(p), (if keep then [x] else []) + xs, [x] + ys)
  {
    var head := if keep then [0] else [];
    var q := head + Shift(p);
    var zs := (if keep then [x] else []) + xs;
    forall k | 0 <= k < |q| ensures q[k] < |[x] + ys| && zs[k] == ([x] + ys)[q[k]] {
      if k >= |head| {
        assert q[k] == p[k - |head|] + 1 && zs[k] == xs[k - |head|];
      }
    }
  }

  /** Position `i + 1` is in the shifted list iff `i` is in the list. */
  lemma ShiftMembership(p: seq<nat>, i: nat)
    ensures i + 1 in Shift(p) <==> i in p
    ensures 0 !in Shift(p)
  {
    var q := Shift(p);
    if i in p {
      var k :| 0 <= k < |p| && p[k] == i;
      assert q[k] == i + 1;
    }
  }

  /** The output is exactly the passing recipes at their catalog positions,
      in catalog order: position `i` of the catalog is used iff the recipe
      there passes. */
  lemma {:induction false} FilteredAtKeptPositions(rs: seq<Recipe>, selected: set<string>, filters: Filters)
    ensures var p := KeptPositions(rs, selected, filters);
            && Embeds(p, Filtered(rs, selected, filters), rs)
            && (forall i :: 0 <= i < |rs| ==> (i in p <==> Keeps(rs[i], selected, filters)))
  {
    if rs != [] {
      var t := rs[1..];
      FilteredAtKeptPositions(t, selected, filters);
      var q := KeptPositions(t, selected, filters);
      var keep := Keeps(rs[0], selected, filters);
      assert rs == [rs[0]] + t;
      EmbedsCons(q, Filtered(t, selected, filters), t, rs[0], keep);
      var p := KeptPositions(rs, selected, filters);
      forall i | 0 <= i < |rs| ensures i in p <==> Keeps(rs[i], selected, filters) {
        if i > 0 {
          ShiftMembership(q, i - 1);
          assert rs[i] == t[i - 1];
        } else {
          ShiftMembership(q, 0);
        }
      }
    }
  }

  /** The output never reorders the catalog. */
  lemma FilteredIsSubsequence(rs: seq<Recipe>, selected: set<string>, filters: Filters)
    ensures IsSubsequence(Filtered(rs, selected, filters), rs)
  {
    FilteredAtKeptPositions(rs, selected, filters);
  }

  /** A recipe occurs in the output exactly as often as in the catalog when it
      passes, and not at all otherwise: nothing is duplicated or invented. */
  lemma {:induction false} FilteredCount(rs: seq<Recipe>, selected: set<string>, filters: Filters, r: Recipe)
    ensures multiset(Filtered(rs, selected, filters))[r]
            == if Keeps(r, selected, filters) then multiset(rs)[r] else 0
  {
    if rs != [] {
      FilteredCount(rs[1..], selected, filters, r);
      assert rs == [rs[0]] + rs[1..];
    }
  }

  /** A recipe is shown iff it is in the catalog and passes all three tests. */
  lemma FilteredMembership(rs: seq<Recipe>, selected: set<string>, filters: Filters, r: Recipe)
    ensures r in Filtered(rs, selected, filters) <==> r in rs && Keeps(r, selected, filters)
  {
    FilteredCount(rs, selected, filters, r);
    assert r in Filtered(rs, selected, filters) <==> r in multiset(Filtered(rs, selected, filters));
    assert r in rs <==> r in multiset(rs);
  }

  // ----- Narrowing and widening -----

  /** When every recipe that passes the stricter criteria also passes the
      looser ones, filtering by the stricter criteria is filtering the looser
      output once more. */
  lemma {:induction false} FilterOfFiltered(rs: seq<Recipe>, s1: set<string>, f1: Filters, s2: set<string>, f2: Filters)
    requires forall r :: Keeps(r, s2, f2) ==> Keeps(r, s1, f1)
    ensures Filtered(rs, s2, f2) == Filtered(Filtered(rs, s1, f1), s2, f2)
  {
    if rs != [] {
      FilterOfFiltered(rs[1..], s1, f1, s2, f2);
      var head := if Keeps(rs[0], s1, f1) then [rs[0]] else [];
      FilteredAppend(head, Filtered(rs[1..], s1, f1), s2, f2);
    }
  }

  /** The stricter output is a subsequence of the looser one. */
  lemma Narrower(rs: seq<Recipe>, s1: set<string>, f1: Filters, s2: set<string>, f2: Filters)
    requires forall r :: Keeps(r, s2, f2) ==> Keeps(r, s1, f1)
    ensures IsSubsequence(Filtered(rs, s2, f2), Filtered(rs, s1, f1))
  {
    FilterOfFiltered(rs, s1, f1, s2, f2);
    FilteredIsSubsequence(Filtered(rs, s1, f1), s2, f2);
  }

  /** Selecting one more ingredient can never add a recipe. */
  lemma SelectingNarrows(rs: seq<Recipe>, selected: set<string>, filters: Filters, ing: string)
    ensures IsSubsequence(Filtered(rs, selected + {ing}, filters), Filtered(rs, selected, filters))
  {
    Narrower(rs, selected, filters, selected + {ing}, filters);
  }

  /** `m1` bounds the cook time at least as tightly as `m2`. */
  predicate AtLeastAsTight(m1: MaxTime, m2: MaxTime) {
    !m2.Bound? || (m1.Bound? && m1.minutes <= m2.minutes)
  }

  /** Lowering (or introducing) the maximum time can never add a recipe. */
  lemma TighteningTimeNarrows(rs: seq<Recipe>, selected: set<string>, m1: MaxTime, m2: MaxTime, query: string)
    requires AtLeastAsTight(m1, m2)
    ensures IsSubsequence(Filtered(rs, selected, Filters(m1, query)), Filtered(rs, selected, Filters(m2, query)))
  {
    Narrower(rs, selected, Filters(m2, query), selected, Filters(m1, query));
  }

  /** Clearing the name query can never remove a recipe. */
  lemma ClearingQueryWidens(rs: seq<Recipe>, selected: set<string>, maxTime: MaxTime, query: string)
    ensures IsSubsequence(Filtered(rs, selected, Filters(maxTime, query)), Filtered(rs, selected, Filters(maxTime, "")))
  {
    Narrower(rs, selected, Filters(maxTime, ""), selected, Filters(maxTime, query));
  }

  /** With nothing selected and no filters, the whole catalog is shown in
      its order. */
  lemma {:induction false} NoCriteriaKeepsAll(rs: seq<Recipe>)
    ensures Filtered(rs, {}, NoFilters) == rs
  {
    if rs != [] {
      NoCriteriaKeepsAll(rs[1..]);
      assert rs == [rs[0]] + rs[1..];
    }
  }

  lemma {:induction false} SameTestsSameOutput(rs: seq<Recipe>, s1: set<string>, f1: Filters, s2: set<string>, f2: Filters)
    requires forall r :: Keeps(r, s1, f1) <==> Keeps(r, s2, f2)
    ensures Filtered(rs, s1, f1) == Filtered(rs, s2, f2)
  {
    if rs != [] {
      SameTestsSameOutput(rs[1..], s1, f1, s2, f2);
    }
  }

  /** The name query is compared without regard to case: queries equal after
      lower-casing select the same recipes. */
  lemma CaseInsensitiveQuery(rs: seq<Recipe>, selected: set<string>, maxTime: MaxTime, q1: string, q2: string)
    requires Lower(q1) == Lower(q2)
    ensures Filtered(rs, selected, Filters(maxTime, q1)) == Filtered(rs, selected, Filters(maxTime, q2))
  {
    SameTestsSameOutput(rs, selected, Filters(maxTime, q1), selected, Filters(maxTime, q2));
  }

  /** "PASTA" and "pasta" give the same result. */
  lemma PastaAnyCase(rs: seq<Recipe>, selected: set<string>, maxTime: MaxTime)
    ensures Filtered(rs, selected, Filters(maxTime, "PASTA")) == Filtered(rs, selected, Filters(maxTime, "pasta"))
  {
    assert Lower("PASTA") == "pasta" == Lower("pasta");
    CaseInsensitiveQuery(rs, selected, maxTime, "PASTA", "pasta");
  }

  /** A maximum time that is not a number excludes no recipe: the output is
      the one without a bound. */
  lemma NotANumberExcludesNothing(rs: seq<Recipe>, selected: set<string>, query: string)
    ensures Filtered(rs, selected, Filters(NotANumber, query)) == Filtered(rs, selected, Filters(NoBound, query))
  {
    SameTestsSameOutput(rs, selected, Filters(NotANumber, query), selected, Filters(NoBound, query));
  }
}
