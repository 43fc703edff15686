/** The product categories page: the search over names and descriptions and
    the total, active and inactive counts. Lower-casing is a parameter. */
module ProductCategoriesPage {
  import opened Wrappers
  import opened Types
  import opened Text
  import opened Folds

  /** The term, lower-cased, occurs in the lower-cased name or description;
      a missing description matches nothing. */
  predicate CategoryMatches(lower: string -> string, term: string, c: ProductCategory) {
    || Includes(lower(c.name), lower(term))
    || (c.description.Some? && Includes(lower(c.description.value), lower(term)))
  }

  /** `filteredCategories`: the matching categories, in list order; nothing
      when the list has not loaded. */
  function FilteredCategories(lower: string -> string, term: string, categories: Option<seq<ProductCategory>>): (r: seq<ProductCategory>)
    ensures categories.None? ==> r == []
    ensures categories.Some? ==> forall c :: c in r <==> c in categories.value && CategoryMatches(lower, term, c)
  {
    match categories
    case None => []
    case Some(cs) =>
      FilterMembership(cs, (c: ProductCategory) => CategoryMatches(lower, term, c));
      Filter(cs, (c: ProductCategory) => CategoryMatches(lower, term, c))
  }

  /** The search keeps the list order. */
  lemma FilteredCategoriesKeepsOrder(lower: string -> string, term: string, pre: seq<ProductCategory>, post: seq<ProductCategory>)
    ensures FilteredCategories(lower, term, Some(pre + post))
         == FilteredCategories(lower, term, Some(pre)) + FilteredCategories(lower, term, Some(post))
  {
    FilterAppend(pre, post, (c: ProductCategory) => CategoryMatches(lower, term, c));
  }

  /** The statistics cards. */
  datatype Stats = Stats(total: nat, active: nat, inactive: int)

  predicate IsActiveCategory(c: ProductCategory) {
    c.isActive
  }

  /** The counts: all categories, the active ones, and the difference; all
      0 when the list has not loaded. */
  function CategoryStats(categories: Option<seq<ProductCategory>>): (r: Stats)
    ensures categories.None? ==> r == Stats(0, 0, 0)
    ensures categories.Some? ==> r.total == |categories.value| && r.active == Count(categories.value, IsActiveCategory)
    ensures r.inactive == r.total - r.active
    ensures 0 <= r.inactive && r.active <= r.total
  {
    match categories
    case None => Stats(0, 0, 0)
    case Some(cs) =>
      var total := |cs|;
      var active := Count(cs, IsActiveCategory);
      Stats(total, active, total - active)
  }

  /** The inactive count is the number of categories that are not active. */
  lemma {:induction false} InactiveCountsInactive(cs: seq<ProductCategory>)
    ensures CategoryStats(Some(cs)).inactive == Count(cs, (c: ProductCategory) => !c.isActive)
    decreases |cs|
  {
    if cs != [] {
      var init := cs[..|cs| - 1];
      InactiveCountsInactive(init);
      assert init + [cs[|cs| - 1]] == cs;
    }
  }
}
