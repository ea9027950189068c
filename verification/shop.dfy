/**
 * The shop page: the product catalogue, the search → category → sort
 * pipeline that recomputes the visible products, and the cart and wish
 * list. Ratings are held in tenths (4.8 is 48); prices are whole rupees.
 */
module Shop {
  import opened Optional
  import opened Text
  import opened Lists

  datatype Product = Product(
    id: string,
    name: string,
    category: string,
    price: nat,
    originalPrice: Option<nat>,
    rating: nat,
    reviews: nat,
    image: string,
    description: string,
    brand: string,
    inStock: bool,
    discount: Option<nat>,
    isNew: bool,
    isTrending: bool)

  const DESCRIPTION_1: string :=
    "Complete football collection with multiple premium quality footballs for training and matches"
  const DESCRIPTION_2: string :=
    "Official match football with premium leather construction for professional play"
  const DESCRIPTION_3: string :=
    "Lightweight speed boots with Flyknit technology for explosive acceleration"
  const DESCRIPTION_4: string :=
    "Complete table tennis kit with professional paddles, balls, and accessories"
  const DESCRIPTION_5: string :=
    "High-performance badminton rackets with carbon fiber construction and premium strings"
  const DESCRIPTION_6: string :=
    "Complete football kit with jersey, shorts, socks, and professional gear"
  const DESCRIPTION_7: string :=
    "Premium sports clothing collection with moisture-wicking technology for all sports"
  const DESCRIPTION_8: string :=
    "Professional table tennis net with mounting system and official measurements"

  /** The eight products the page loads after its start-up delay; an absent `isNew` / `isTrending` reads as false. */
  function Catalogue(): (r: seq<Product>)
    ensures |r| == 8
  {
    [Shop1(), Shop2(), Shop3(), Shop4(), Shop5(), Shop6(), Shop7(), Shop8()]
  }

  function Shop1(): Product
  {
    Product("1", "Premium Football Collection Pack", "football", 2499, Some(3499), 48, 1247, "/src/assets/shop1.jpeg",
      DESCRIPTION_1,
      "Sports Elite", true, Some(29), false, true)
  }

  function Shop2(): Product
  {
    Product("2", "Professional Match Football", "football", 1899, Some(2499), 49, 892, "/src/assets/shop2.jpeg",
      DESCRIPTION_2,
      "Match Pro", true, Some(24), true, false)
  }

  function Shop3(): Product
  {
    Product("3", "Nike Mercurial Vapor 15", "football", 24999, Some(29999), 47, 567, "/src/assets/shop3.jpeg",
      DESCRIPTION_3,
      "Nike", true, Some(17), false, false)
  }

  function Shop4(): Product
  {
    Product("4", "Professional Table Tennis Set", "table-tennis", 3999, Some(5499), 46, 423, "/src/assets/shop4.jpeg",
      DESCRIPTION_4,
      "Table Tennis Pro", true, Some(27), false, false)
  }

  function Shop5(): Product
  {
    Product("5", "Premium Badminton Racket Set", "badminton", 5999, Some(7999), 45, 234, "/src/assets/shop5.jpeg",
      DESCRIPTION_5,
      "Badminton Elite", true, Some(25), false, false)
  }

  function Shop6(): Product
  {
    Product("6", "Professional Football Kit", "football", 8999, Some(11999), 44, 189, "/src/assets/shop6.jpeg",
      DESCRIPTION_6,
      "Football Pro", true, Some(25), false, false)
  }

  function Shop7(): Product
  {
    Product("7", "Sports Clothing Collection", "fitness", 3999, Some(5999), 43, 456, "/src/assets/shop7.jpeg",
      DESCRIPTION_7,
      "Sports Wear", true, Some(33), false, false)
  }

  function Shop8(): Product
  {
    Product("8", "Table Tennis Net & Accessories", "table-tennis", 1999, Some(2999), 48, 678, "/src/assets/shop8.jpeg",
      DESCRIPTION_8,
      "Table Tennis Elite", true, Some(33), false, true)
  }

  // ---------------------------------------------------------------------
  // The filter/sort pipeline.

  /** The search test: the lower-cased term occurs in the lower-cased name, brand or category. */
  predicate MatchesSearch(p: Product, term: string)
  {
    ContainsIgnoreCase(p.name, term) || ContainsIgnoreCase(p.brand, term) || ContainsIgnoreCase(p.category, term)
  }

  function SearchTest(term: string): Product -> bool
  {
    (p: Product) => MatchesSearch(p, term)
  }

  /** The search step, skipped when the term is the empty string. */
  function SearchStep(ps: seq<Product>, term: string): (r: seq<Product>)
    ensures term == [] ==> r == ps
    ensures forall x | x in r :: x in ps && (term == [] || MatchesSearch(x, term))
    ensures forall x | x in ps && (term == [] || MatchesSearch(x, term)) :: x in r
    ensures Subsequence(r, ps)
  {
    if term == [] then
      SubsequenceOfSelf(ps);
      ps
    else
      FilterMembers(ps, SearchTest(term));
      FilterIsSubsequence(ps, SearchTest(term));
      Filter(ps, SearchTest(term))
  }

  function CategoryTest(category: string): Product -> bool
  {
    (p: Product) => p.category == category
  }

  /** The category step: `'all'` keeps every product, any other id keeps the products of exactly that category. */
  function CategoryStep(ps: seq<Product>, category: string): (r: seq<Product>)
    ensures category == "all" ==> r == ps
    ensures category != "all" ==> forall i :: 0 <= i < |r| ==> r[i].category == category
    ensures forall x | x in r :: x in ps && (category == "all" || x.category == category)
    ensures forall x | x in ps && (category == "all" || x.category == category) :: x in r
    ensures Subsequence(r, ps)
  {
    if category == "all" then
      SubsequenceOfSelf(ps);
      ps
    else
      FilterMembers(ps, CategoryTest(category));
      FilterIsSubsequence(ps, CategoryTest(category));
      Filter(ps, CategoryTest(category))
  }

  // Every comparator of the sort switch is `key(a) - key(b)` for one of these keys.
  function PriceKey(p: Product): int { p.price }
  function PriceDescKey(p: Product): int { -(p.price as int) }
  function RatingDescKey(p: Product): int { -(p.rating as int) }
  function NewKey(p: Product): int { if p.isNew then -1 else 0 }
  function TrendingKey(p: Product): int { if p.isTrending then -1 else 0 }

  /** The sort key the `sortBy` switch selects; any value it does not name (`'featured'` among them) sorts trending first. */
  function SortKey(sortBy: string): Product -> int
  {
    if sortBy == "price-low" then PriceKey
    else if sortBy == "price-high" then PriceDescKey
    else if sortBy == "rating" then RatingDescKey
    else if sortBy == "newest" then NewKey
    else TrendingKey
  }

  /** The products passing both filter steps, before sorting. */
  function Selected(ps: seq<Product>, term: string, category: string): seq<Product>
  {
    CategoryStep(SearchStep(ps, term), category)
  }

  /** The visible products: search, then category, then a stable sort of the copy. */
  function FilteredProducts(ps: seq<Product>, term: string, category: string, sortBy: string): (r: seq<Product>)
    ensures multiset(r) == multiset(Selected(ps, term, category))
  {
    SortBy(Selected(ps, term, category), SortKey(sortBy))
  }

  /** A product is shown iff it is in the catalogue and passes both the search and the category test. */
  lemma FilteredProductsMembers(ps: seq<Product>, term: string, category: string, sortBy: string, x: Product)
    ensures x in FilteredProducts(ps, term, category, sortBy) <==>
              x in ps && (term == [] || MatchesSearch(x, term)) && (category == "all" || x.category == category)
  {
    var r := FilteredProducts(ps, term, category, sortBy);
    assert x in r <==> x in multiset(r);
    assert x in Selected(ps, term, category) <==> x in multiset(Selected(ps, term, category));
  }

  /** Sorting neither adds nor drops products: each one appears as often as among the filtered products. */
  lemma FilteredProductsPermutes(ps: seq<Product>, term: string, category: string, sortBy: string)
    ensures |FilteredProducts(ps, term, category, sortBy)| == |Selected(ps, term, category)|
    ensures multiset(FilteredProducts(ps, term, category, sortBy)) <= multiset(ps)
  {
    var a := SearchStep(ps, term);
    var b := CategoryStep(a, category);
    SubsequenceMultiset(a, ps);
    SubsequenceMultiset(b, a);
    var r := FilteredProducts(ps, term, category, sortBy);
    assert |r| == |multiset(r)| == |multiset(b)| == |b|;
  }

  /** `'price-low'` lists prices in non-decreasing order. */
  lemma PriceLowSorted(ps: seq<Product>, term: string, category: string)
    ensures forall i, j :: 0 <= i < j < |FilteredProducts(ps, term, category, "price-low")| ==>
              FilteredProducts(ps, term, category, "price-low")[i].price <= FilteredProducts(ps, term, category, "price-low")[j].price
  {
    SortBySorted(Selected(ps, term, category), PriceKey);
  }

  /** `'price-high'` lists prices in non-increasing order. */
  lemma PriceHighSorted(ps: seq<Product>, term: string, category: string)
    ensures forall i, j :: 0 <= i < j < |FilteredProducts(ps, term, category, "price-high")| ==>
              FilteredProducts(ps, term, category, "price-high")[i].price >= FilteredProducts(ps, term, category, "price-high")[j].price
  {
    SortBySorted(Selected(ps, term, category), PriceDescKey);
  }

  /** `'rating'` lists ratings in non-increasing order. */
  lemma RatingSorted(ps: seq<Product>, term: string, category: string)
    ensures forall i, j :: 0 <= i < j < |FilteredProducts(ps, term, category, "rating")| ==>
              FilteredProducts(ps, term, category, "rating")[i].rating >= FilteredProducts(ps, term, category, "rating")[j].rating
  {
    SortBySorted(Selected(ps, term, category), RatingDescKey);
  }

  function IsNew(p: Product): bool { p.isNew }
  function NotNew(p: Product): bool { !p.isNew }
  function IsTrending(p: Product): bool { p.isTrending }
  function NotTrending(p: Product): bool { !p.isTrending }

  /** `'newest'` lists the new products first and the others after, each group in its filtered order. */
  lemma NewestPartitions(ps: seq<Product>, term: string, category: string)
    ensures FilteredProducts(ps, term, category, "newest") ==
              Filter(Selected(ps, term, category), IsNew) + Filter(Selected(ps, term, category), NotNew)
  {
    var sel := Selected(ps, term, category);
    assert SortKey("newest") == NewKey;
    forall y ensures NewKey(y) == (if IsNew(y) then -1 else 0) && NotNew(y) == !IsNew(y) {
    }
    SortByFlagPartitions(sel, NewKey, IsNew, NotNew);
  }

  /** Any other `sortBy` (the default `'featured'`) lists the trending products first, each group in its filtered order. */
  lemma FeaturedPartitions(ps: seq<Product>, term: string, category: string, sortBy: string)
    requires sortBy !in {"price-low", "price-high", "rating", "newest"}
    ensures FilteredProducts(ps, term, category, sortBy) ==
              Filter(Selected(ps, term, category), IsTrending) + Filter(Selected(ps, term, category), NotTrending)
  {
    var sel := Selected(ps, term, category);
    assert SortKey(sortBy) == TrendingKey;
    forall y ensures TrendingKey(y) == (if IsTrending(y) then -1 else 0) && NotTrending(y) == !IsTrending(y) {
    }
    SortByFlagPartitions(sel, TrendingKey, IsTrending, NotTrending);
  }

  /** The initial view (no term, `'all'`, `'featured'`) is every product, trending ones first. */
  lemma InitialViewIsTrendingFirst(ps: seq<Product>)
    ensures FilteredProducts(ps, "", "all", "featured") == Filter(ps, IsTrending) + Filter(ps, NotTrending)
  {
    FeaturedPartitions(ps, "", "all", "featured");
  }

  // ---------------------------------------------------------------------
  // Page state.

  /** The state the page keeps: the loaded products, the filter inputs, the visible list, the cart and the wish list. */
  class ShopPage {
    var loading: bool
    var products: seq<Product>
    var searchTerm: string
    var selectedCategory: string
    var sortBy: string
    var filteredProducts: seq<Product>
    var cart: seq<Product>
    var wishlist: seq<string>

    /** The wish list holds no id twice. */
    ghost predicate Valid()
      reads this
    {
      NoDuplicates(wishlist)
    }

    /** The filter effect has run on the current inputs: the visible list is the pipeline's output. */
    ghost predicate InSync()
      reads this
    {
      filteredProducts == FilteredProducts(products, searchTerm, selectedCategory, sortBy)
    }

    constructor ()
      ensures Valid() && InSync()
      ensures loading && products == [] && filteredProducts == []
      ensures searchTerm == "" && selectedCategory == "all" && sortBy == "featured"
      ensures cart == [] && wishlist == []
    {
      loading := true;
      products := [];
      searchTerm := "";
      selectedCategory := "all";
      sortBy := "featured";
      filteredProducts := [];
      cart := [];
      wishlist := [];
    }

    /** The start-up timer fires: the catalogue is loaded and the pipeline reruns. */
    method FinishLoading(loaded: seq<Product>)
      requires Valid()
      modifies this
      ensures Valid() && InSync()
      ensures !loading && products == loaded
      ensures searchTerm == old(searchTerm) && selectedCategory == old(selectedCategory) && sortBy == old(sortBy)
      ensures cart == old(cart) && wishlist == old(wishlist)
    {
      products := loaded;
      loading := false;
      filteredProducts := FilteredProducts(products, searchTerm, selectedCategory, sortBy);
    }

    /** A new search term; the effect reruns and the products themselves are untouched. */
    method SetSearchTerm(term: string)
      requires Valid()
      modifies this
      ensures Valid() && InSync()
      ensures searchTerm == term
      ensures products == old(products) && selectedCategory == old(selectedCategory) && sortBy == old(sortBy)
      ensures loading == old(loading) && cart == old(cart) && wishlist == old(wishlist)
    {
      searchTerm := term;
      filteredProducts := FilteredProducts(products, searchTerm, selectedCategory, sortBy);
    }

    method SetCategory(category: string)
      requires Valid()
      modifies this
      ensures Valid() && InSync()
      ensures selectedCategory == category
      ensures products == old(products) && searchTerm == old(searchTerm) && sortBy == old(sortBy)
      ensures loading == old(loading) && cart == old(cart) && wishlist == old(wishlist)
    {
      selectedCategory := category;
      filteredProducts := FilteredProducts(products, searchTerm, selectedCategory, sortBy);
    }

    method SetSortBy(order: string)
      requires Valid()
      modifies this
      ensures Valid() && InSync()
      ensures sortBy == order
      ensures products == old(products) && searchTerm == old(searchTerm) && selectedCategory == old(selectedCategory)
      ensures loading == old(loading) && cart == old(cart) && wishlist == old(wishlist)
    {
      sortBy := order;
      filteredProducts := FilteredProducts(products, searchTerm, selectedCategory, sortBy);
    }

    /** Appends exactly the given product; duplicates are allowed and earlier entries stay as they were. */
    method AddToCart(p: Product)
      requires Valid() && InSync()
      modifies this
      ensures Valid() && InSync()
      ensures cart == old(cart) + [p]
      ensures products == old(products) && filteredProducts == old(filteredProducts) && wishlist == old(wishlist)
      ensures loading == old(loading) && searchTerm == old(searchTerm)
      ensures selectedCategory == old(selectedCategory) && sortBy == old(sortBy)
    {
      cart := cart + [p];
    }

    /** Removes the id when present, appends it otherwise; the wish list stays free of duplicates. */
    method ToggleWishlist(productId: string)
      requires Valid() && InSync()
      modifies this
      ensures Valid() && InSync()
      ensures wishlist == Toggle(old(wishlist), productId)
      ensures productId in wishlist <==> productId !in old(wishlist)
      ensures products == old(products) && filteredProducts == old(filteredProducts) && cart == old(cart)
      ensures loading == old(loading) && searchTerm == old(searchTerm)
      ensures selectedCategory == old(selectedCategory) && sortBy == old(sortBy)
    {
      ToggleKeepsNoDuplicates(wishlist, productId);
      wishlist := Toggle(wishlist, productId);
    }
  }
}
