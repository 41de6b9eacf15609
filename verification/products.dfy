/** The product slice: the full catalogue, the list the product grid shows
    (`filteredProducts`), and the distinct categories. Filtering and search
    always start again from the full catalogue; sorting reorders the list
    currently shown. */
module Products {
  import opened Common
  import opened Seqs
  import opened Text
  import opened Sorting

  /** A catalogue entry. Prices are whole cents, ratings are tenths of a
      star, and `createdAt` is the millisecond timestamp `Date.getTime`
      gives for the entry's date string. */
  datatype Product = Product(
    id: string,
    name: string,
    description: string,
    price: int,
    rating: int,
    reviews: int,
    category: string,
    image: string,
    images: seq<string>,
    colors: seq<string>,
    sizes: Option<seq<string>>,
    featured: bool,
    inStock: bool,
    createdAt: int)

  datatype ProductState = ProductState(
    products: seq<Product>,
    filteredProducts: seq<Product>,
    categories: seq<string>,
    status: LoadStatus,
    error: Option<string>)

  /** `products.map((product) => product.category)` */
  function CategoryColumn(ps: seq<Product>): seq<string>
  {
    seq(|ps|, i requires 0 <= i < |ps| => ps[i].category)
  }

  /** Position of the first product of `category`; `|ps|` when there is
      none. */
  function FirstOfCategory(ps: seq<Product>, category: string): nat
  {
    match FindIndex(ps, InCategory(category))
    case Some(i) => i
    case None => |ps|
  }

  /** `[...new Set(products.map((product) => product.category))]`: every
      category once, in the order its first product appears. */
  function CategoriesOf(ps: seq<Product>): (r: seq<string>)
    ensures NoDuplicates(r)
    ensures forall c :: c in r <==> exists p :: p in ps && p.category == c
    ensures forall i, j :: 0 <= i < j < |r| ==> FirstOfCategory(ps, r[i]) < FirstOfCategory(ps, r[j])
  {
    var column := CategoryColumn(ps);
    ColumnFirstIndex(ps);
    ColumnMembers(ps);
    Distinct(column)
  }

  /** A category's first position in the column is its first product's
      position. */
  lemma ColumnFirstIndex(ps: seq<Product>)
    ensures forall c :: c in CategoryColumn(ps) ==>
      FirstOfCategory(ps, c) == IndexOf(CategoryColumn(ps), c)
  {
    var column := CategoryColumn(ps);
    forall c | c in column
      ensures FirstOfCategory(ps, c) == IndexOf(column, c)
    {
      var k := IndexOf(column, c);
      assert InCategory(c)(ps[k]);
      forall j | 0 <= j < k
        ensures !InCategory(c)(ps[j])
      {
        assert column[j] == ps[j].category;
      }
    }
  }

  /** The column holds exactly the categories some product has. */
  lemma ColumnMembers(ps: seq<Product>)
    ensures forall c :: c in CategoryColumn(ps) <==> exists p :: p in ps && p.category == c
  {
    var column := CategoryColumn(ps);
    forall c
      ensures c in column <==> exists p :: p in ps && p.category == c
    {
      if c in column {
        var i :| 0 <= i < |column| && column[i] == c;
        assert ps[i] in ps && ps[i].category == c;
      }
      if exists p :: p in ps && p.category == c {
        var p :| p in ps && p.category == c;
        var i :| 0 <= i < |ps| && ps[i] == p;
        assert column[i] == c;
      }
    }
  }

  /** The state the store starts from, given the catalogue it is built
      with: everything shown, categories derived. */
  function InitialProducts(catalogue: seq<Product>): ProductState
  {
    ProductState(catalogue, catalogue, CategoriesOf(catalogue), Idle, None)
  }

  // ---------------------------------------------------------------------
  // Category filter

  function InCategory(category: string): Product -> bool
  {
    (p: Product) => p.category == category
  }

  /** "all" shows the whole catalogue; any other value shows the products
      of exactly that category, in catalogue order. */
  function FilterByCategory(s: ProductState, category: string): (r: ProductState)
    ensures r == s.(filteredProducts := r.filteredProducts)
    ensures category == "all" ==> r.filteredProducts == s.products
    ensures category != "all" ==>
      && IsSubseq(r.filteredProducts, s.products)
      && (forall i :: 0 <= i < |r.filteredProducts| ==> r.filteredProducts[i].category == category)
      && (forall i :: 0 <= i < |s.products| && s.products[i].category == category ==>
            s.products[i] in r.filteredProducts)
  {
    if category == "all" then s.(filteredProducts := s.products)
    else s.(filteredProducts := Filter(s.products, InCategory(category)))
  }

  // ---------------------------------------------------------------------
  // Sorting

  function PriceAscending(p: Product): int { p.price }
  function PriceDescending(p: Product): int { -p.price }
  function RatingDescending(p: Product): int { -p.rating }
  function NewestFirst(p: Product): int { -p.createdAt }

  /** The comparator each sort mode passes to `Array.prototype.sort`,
      written as a key sorted ascending; `None` for any other string, which
      the reducer's `switch` ignores. */
  function ModeKey(mode: string): Option<Product -> int>
  {
    if mode == "price-asc" then Some(PriceAscending)
    else if mode == "price-desc" then Some(PriceDescending)
    else if mode == "rating" then Some(RatingDescending)
    else if mode == "newest" then Some(NewestFirst)
    else None
  }

  /** Reorders the shown list in place by the chosen mode. */
  function SortProducts(s: ProductState, mode: string): (r: ProductState)
    ensures r == s.(filteredProducts := r.filteredProducts)
    ensures multiset(r.filteredProducts) == multiset(s.filteredProducts)
    ensures mode == "price-asc" ==> forall i, j :: 0 <= i < j < |r.filteredProducts| ==>
      r.filteredProducts[i].price <= r.filteredProducts[j].price
    ensures mode == "price-desc" ==> forall i, j :: 0 <= i < j < |r.filteredProducts| ==>
      r.filteredProducts[i].price >= r.filteredProducts[j].price
    ensures mode == "rating" ==> forall i, j :: 0 <= i < j < |r.filteredProducts| ==>
      r.filteredProducts[i].rating >= r.filteredProducts[j].rating
    ensures mode == "newest" ==> forall i, j :: 0 <= i < j < |r.filteredProducts| ==>
      r.filteredProducts[i].createdAt >= r.filteredProducts[j].createdAt
    ensures ModeKey(mode).None? ==> r == s
  {
    match ModeKey(mode)
    case Some(key) =>
      var sorted := SortBy(s.filteredProducts, key);
      assert forall i, j :: 0 <= i < j < |sorted| ==> key(sorted[i]) <= key(sorted[j]);
      s.(filteredProducts := sorted)
    case None => s
  }

  // ---------------------------------------------------------------------
  // Search

  /** The search test on an already lower-cased term. */
  function MatchesTerm(term: string): Product -> bool
  {
    (p: Product) => || Includes(Lower(p.name), term)
                    || Includes(Lower(p.description), term)
                    || Includes(Lower(p.category), term)
  }

  /** The empty term matches every product, so the reducer's shortcut for
      "" agrees with filtering. */
  lemma EmptyTermMatchesAll(ps: seq<Product>)
    ensures Filter(ps, MatchesTerm("")) == ps
  {
    forall i | 0 <= i < |ps|
      ensures MatchesTerm("")(ps[i])
    {
      IncludesEmpty(Lower(ps[i].name));
    }
    FilterKeepsAll(ps, MatchesTerm(""));
  }

  /** Case-insensitive substring search over name, description and
      category, starting from the full catalogue. */
  function SearchProducts(s: ProductState, term: string): (r: ProductState)
    ensures r == s.(filteredProducts := r.filteredProducts)
    ensures term == "" ==> r.filteredProducts == s.products
    ensures IsSubseq(r.filteredProducts, s.products)
    ensures forall i :: 0 <= i < |r.filteredProducts| ==>
      MatchesTerm(Lower(term))(r.filteredProducts[i])
    ensures forall i :: 0 <= i < |s.products| && MatchesTerm(Lower(term))(s.products[i]) ==>
      s.products[i] in r.filteredProducts
  {
    var t := Lower(term);
    if t == "" then
      EmptyTermMatchesAll(s.products);
      s.(filteredProducts := s.products)
    else
      s.(filteredProducts := Filter(s.products, MatchesTerm(t)))
  }

  // ---------------------------------------------------------------------
  // The slice reducer and action sequences

  datatype ProductAction =
    | ByCategory(category: string)
    | Sort(mode: string)
    | Search(term: string)

  function Reduce(s: ProductState, a: ProductAction): ProductState
  {
    match a
    case ByCategory(c) => FilterByCategory(s, c)
    case Sort(mode) => SortProducts(s, mode)
    case Search(term) => SearchProducts(s, term)
  }

  function Run(s: ProductState, actions: seq<ProductAction>): ProductState
    decreases |actions|
  {
    if |actions| == 0 then s else Run(Reduce(s, actions[0]), actions[1..])
  }
}
