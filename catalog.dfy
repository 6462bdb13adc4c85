/** The catalog filter (App.tsx, the filtering effect): the products shown
    for the active browse filter and the search box. */
module Catalog {
  import opened Types
  import opened Text
  import opened Sequences

  const AllFilter := "All"

  function InCategory(activeFilter: string): Product -> bool
  {
    (p: Product) => p.filterCategory == activeFilter
  }

  /** Name or course code contains the lower-cased query, ignoring case. */
  function MatchesQuery(lowerQuery: string): Product -> bool
  {
    (p: Product) => Contains(Lower(p.name), lowerQuery) || Contains(Lower(p.code), lowerQuery)
  }

  /** The list the effect stores with setFilteredProducts. The category
      filter applies unless it is 'All'; the search applies when the trimmed
      query is non-empty, and matches against the whole query lower-cased,
      surrounding whitespace included. */
  function FilterProducts(products: seq<Product>, activeFilter: string, searchQuery: string): seq<Product>
  {
    var byCategory :=
      if activeFilter != AllFilter then Filter(products, InCategory(activeFilter)) else products;
    if !IsBlank(searchQuery) then Filter(byCategory, MatchesQuery(Lower(searchQuery)))
    else byCategory
  }

  /** A product the filter should show, stated without the implementation's
      trimming and searching: in the active category (or the filter is
      'All'), and either the query is all whitespace or it occurs, ignoring
      case, in the product's name or code. */
  ghost predicate Shown(p: Product, activeFilter: string, searchQuery: string)
  {
    && (activeFilter == AllFilter || p.filterCategory == activeFilter)
    && (AllWhitespace(searchQuery)
        || (exists i :: OccursAt(Lower(p.name), Lower(searchQuery), i))
        || (exists i :: OccursAt(Lower(p.code), Lower(searchQuery), i)))
  }

  /** The filtered list keeps the catalog's order, holds exactly the products
      that should be shown, each as often as in the catalog, and is the whole
      catalog for 'All' with a blank query. */
  lemma {:induction false} FilterProductsSpec(products: seq<Product>, activeFilter: string, searchQuery: string)
    ensures var r := FilterProducts(products, activeFilter, searchQuery);
      && IsSubsequence(r, products)
      && (forall p :: p in r <==> p in products && Shown(p, activeFilter, searchQuery))
      && (forall p :: Shown(p, activeFilter, searchQuery) ==> multiset(r)[p] == multiset(products)[p])
      && (activeFilter == AllFilter && AllWhitespace(searchQuery) ==> r == products)
  {
    var r := FilterProducts(products, activeFilter, searchQuery);
    var byCategory :=
      if activeFilter != AllFilter then Filter(products, InCategory(activeFilter)) else products;
    var lowerQuery := Lower(searchQuery);

    // Each stage is an order-preserving subsequence.
    assert IsSubsequence(byCategory, products) by {
      if activeFilter != AllFilter {
        FilterIsSubsequence(products, InCategory(activeFilter));
      } else {
        SubsequenceReflexive(products);
      }
    }
    assert IsSubsequence(r, byCategory) by {
      if !IsBlank(searchQuery) {
        FilterIsSubsequence(byCategory, MatchesQuery(lowerQuery));
      } else {
        SubsequenceReflexive(byCategory);
      }
    }
    SubsequenceTransitive(r, byCategory, products);

    // Each product's multiplicity, stage by stage.
    forall p ensures multiset(r)[p] ==
                     if Shown(p, activeFilter, searchQuery) then multiset(products)[p] else 0 {
      FilterProductsCount(products, activeFilter, searchQuery, p);
    }
  }

  lemma {:induction false} FilterProductsCount(products: seq<Product>, activeFilter: string, searchQuery: string, p: Product)
    ensures multiset(FilterProducts(products, activeFilter, searchQuery))[p] ==
            if Shown(p, activeFilter, searchQuery) then multiset(products)[p] else 0
  {
    var byCategory :=
      if activeFilter != AllFilter then Filter(products, InCategory(activeFilter)) else products;
    var lowerQuery := Lower(searchQuery);
    if activeFilter != AllFilter {
      FilterCount(products, InCategory(activeFilter), p);
    }
    if !IsBlank(searchQuery) {
      FilterCount(byCategory, MatchesQuery(lowerQuery), p);
      assert MatchesQuery(lowerQuery)(p) <==>
        Contains(Lower(p.name), lowerQuery) || Contains(Lower(p.code), lowerQuery);
    }
  }
}
