/** The products page: the search-and-category filter over the product list
    and the count of active products at or below their minimum stock level.
    Lower-casing is a parameter (`lower`). */
module ProductsPage {
  import opened Wrappers
  import opened Types
  import opened Text
  import opened Folds

  /** The search half: the term, lower-cased, occurs in the lower-cased
      name, code or barcode; a missing barcode matches nothing. */
  predicate MatchesSearch(lower: string -> string, term: string, p: Product) {
    || Includes(lower(p.name), lower(term))
    || Includes(lower(p.code), lower(term))
    || (p.barcode.Some? && Includes(lower(p.barcode.value), lower(term)))
  }

  /** The category half: "all", or the category id written in decimal. */
  predicate MatchesCategory(categoryFilter: string, p: Product) {
    categoryFilter == "all" || IntToString(p.categoryId) == categoryFilter
  }

  predicate ProductMatches(lower: string -> string, term: string, categoryFilter: string, p: Product) {
    MatchesSearch(lower, term, p) && MatchesCategory(categoryFilter, p)
  }

  /** `filteredProducts`: the products passing both halves, in list order;
      nothing when the list has not loaded. */
  function FilteredProducts(lower: string -> string, term: string, categoryFilter: string, products: Option<seq<Product>>): (r: seq<Product>)
    ensures products.None? ==> r == []
    ensures products.Some? ==> forall p :: p in r <==> p in products.value && ProductMatches(lower, term, categoryFilter, p)
  {
    match products
    case None => []
    case Some(ps) =>
      FilterMembership(ps, (p: Product) => ProductMatches(lower, term, categoryFilter, p));
      Filter(ps, (p: Product) => ProductMatches(lower, term, categoryFilter, p))
  }

  /** The filter keeps the list order. */
  lemma FilteredProductsKeepsOrder(lower: string -> string, term: string, categoryFilter: string, pre: seq<Product>, post: seq<Product>)
    ensures FilteredProducts(lower, term, categoryFilter, Some(pre + post))
         == FilteredProducts(lower, term, categoryFilter, Some(pre)) + FilteredProducts(lower, term, categoryFilter, Some(post))
  {
    FilterAppend(pre, post, (p: Product) => ProductMatches(lower, term, categoryFilter, p));
  }

  /** An empty term under "all" lists every product. */
  lemma EmptyTermAllCategoriesKeepsAll(lower: string -> string, products: seq<Product>)
    requires lower("") == ""
    ensures FilteredProducts(lower, "", "all", Some(products)) == products
  {
    forall i | 0 <= i < |products| ensures ProductMatches(lower, "", "all", products[i]) {
      IncludesEmpty(lower(products[i].name));
    }
    FilterAll(products, (p: Product) => ProductMatches(lower, "", "all", p));
  }

  /** Choosing a category lists products of that category only, and every
      product of it that matches the search. */
  lemma CategoryFilterSelectsOneCategory(lower: string -> string, term: string, id: int, products: seq<Product>)
    ensures forall p :: p in FilteredProducts(lower, term, IntToString(id), Some(products))
                    <==> p in products && p.categoryId == id && MatchesSearch(lower, term, p)
  {
    forall p: Product | p in products
      ensures MatchesCategory(IntToString(id), p) <==> p.categoryId == id
    {
      IntToStringInjective(p.categoryId, id);
    }
  }

  /** `lowStockCount`: the number of active products at or below their
      minimum stock level; 0 when the list has not loaded, and 0 exactly
      when no product qualifies. */
  function LowStockCount(products: Option<seq<Product>>): (r: nat)
    ensures products.None? ==> r == 0
    ensures products.Some? ==> r == Count(products.value, ActiveAndLowOnStock) && r <= |products.value|
    ensures products.Some? ==> (r == 0 <==> forall i :: 0 <= i < |products.value| ==> !ActiveAndLowOnStock(products.value[i]))
  {
    match products
    case None => 0
    case Some(ps) =>
      FilterMembership(ps, ActiveAndLowOnStock);
      assert (exists i :: 0 <= i < |ps| && ActiveAndLowOnStock(ps[i])) ==> |Filter(ps, ActiveAndLowOnStock)| > 0 by {
        if i :| 0 <= i < |ps| && ActiveAndLowOnStock(ps[i]) {
          assert ps[i] in Filter(ps, ActiveAndLowOnStock);
        }
      }
      assert |Filter(ps, ActiveAndLowOnStock)| > 0 ==> exists i :: 0 <= i < |ps| && ActiveAndLowOnStock(ps[i]) by {
        var low := Filter(ps, ActiveAndLowOnStock);
        if |low| > 0 {
          assert low[0] in low;
        }
      }
      Count(ps, ActiveAndLowOnStock)
  }

  /** A product whose minimum level is not sent is never counted. */
  lemma NoLevelNotCounted(products: seq<Product>, p: Product)
    requires p in products && p.minStockLevel.None?
    ensures p !in Filter(products, ActiveAndLowOnStock)
  {
  }
}
