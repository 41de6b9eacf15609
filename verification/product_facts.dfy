/** Properties of the product slice that relate several dispatches. */
module ProductFacts {
  import opened Common
  import opened Seqs
  import opened Text
  import opened Sorting
  import opened Products

  /** The category filter keeps every copy of each product of the category
      and nothing else ("all" keeps everything). */
  lemma FilterByCategoryCounts(s: ProductState, category: string)
    ensures forall p ::
      multiset(FilterByCategory(s, category).filteredProducts)[p] ==
      (if category == "all" || p.category == category then multiset(s.products)[p] else 0)
  {
    if category != "all" {
      FilterCounts(s.products, InCategory(category));
    }
  }

  /** The search keeps every copy of each matching product and nothing
      else. */
  lemma SearchProductsCounts(s: ProductState, term: string)
    ensures forall p ::
      multiset(SearchProducts(s, term).filteredProducts)[p] ==
      (if MatchesTerm(Lower(term))(p) then multiset(s.products)[p] else 0)
  {
    var t := Lower(term);
    if t == "" {
      EmptyTermMatchesAll(s.products);
    }
    FilterCounts(s.products, MatchesTerm(t));
  }

  /** Sorting is stable: products the comparator calls equal keep the
      relative order they had. */
  lemma SortProductsStable(s: ProductState, mode: string, key: Product -> int, k: int)
    requires ModeKey(mode) == Some(key)
    ensures Filter(SortProducts(s, mode).filteredProducts, KeyIs(key, k))
         == Filter(s.filteredProducts, KeyIs(key, k))
  {
    SortByStable(s.filteredProducts, key, k);
  }

  /** Choosing the same sort option again changes nothing. */
  lemma SortProductsIdempotent(s: ProductState, mode: string)
    ensures SortProducts(SortProducts(s, mode), mode) == SortProducts(s, mode)
  {
    match ModeKey(mode)
    case Some(key) =>
      SortBySorted(SortBy(s.filteredProducts, key), key);
    case None =>
  }

  /** The search lower-cases the term, so the case of the term does not
      matter. */
  lemma SearchIgnoresCase(s: ProductState, term: string)
    ensures SearchProducts(s, term) == SearchProducts(s, Lower(term))
  {
    LowerIdempotent(term);
  }

  /** Filtering and searching start from the catalogue, so a search
      discards an earlier category filter or sort, and a category filter
      discards an earlier search or sort. */
  lemma ViewsRestartFromCatalogue(s: ProductState, category: string, mode: string, term: string)
    ensures SearchProducts(FilterByCategory(s, category), term) == SearchProducts(s, term)
    ensures SearchProducts(SortProducts(s, mode), term) == SearchProducts(s, term)
    ensures FilterByCategory(SearchProducts(s, term), category) == FilterByCategory(s, category)
    ensures FilterByCategory(SortProducts(s, mode), category) == FilterByCategory(s, category)
  {
  }

  /** What every reachable state has in common: the catalogue and the
      category list never change, and the shown list holds no product more
      often than the catalogue does. */
  ghost predicate Coherent(s: ProductState, catalogue: seq<Product>)
  {
    && s.products == catalogue
    && s.categories == CategoriesOf(catalogue)
    && multiset(s.filteredProducts) <= multiset(catalogue)
    && s.status == Idle
    && s.error == None
  }

  lemma ReduceKeepsCoherent(s: ProductState, a: ProductAction, catalogue: seq<Product>)
    requires Coherent(s, catalogue)
    ensures Coherent(Reduce(s, a), catalogue)
  {
    match a
    case ByCategory(c) =>
      var r := FilterByCategory(s, c);
      if c != "all" {
        SubseqMultiset(r.filteredProducts, s.products);
      }
    case Sort(mode) =>
    case Search(term) =>
      SubseqMultiset(SearchProducts(s, term).filteredProducts, s.products);
  }

  lemma {:induction false} RunKeepsCoherent(s: ProductState, actions: seq<ProductAction>, catalogue: seq<Product>)
    requires Coherent(s, catalogue)
    ensures Coherent(Run(s, actions), catalogue)
    decreases |actions|
  {
    if |actions| > 0 {
      ReduceKeepsCoherent(s, actions[0], catalogue);
      RunKeepsCoherent(Reduce(s, actions[0]), actions[1..], catalogue);
    }
  }

  /** From the initial state, no sequence of filter, sort and search
      actions changes the catalogue or the categories, or shows a product
      the catalogue lacks. */
  lemma ReachableCoherent(catalogue: seq<Product>, actions: seq<ProductAction>)
    ensures Coherent(Run(InitialProducts(catalogue), actions), catalogue)
  {
    RunKeepsCoherent(InitialProducts(catalogue), actions, catalogue);
  }
}
