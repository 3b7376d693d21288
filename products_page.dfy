/**
 * The product listing page: the category and price filters, the four sort
 * options, the price-bound inputs, and the word-wise capitalizer used for
 * category labels.
 */
module ProductsPage {
  import opened Wrappers
  import opened Types
  import opened Text
  import opened Lists
  import opened Sorting

  /** The category selector's value for "no category filter". */
  const AllCategories := "all"

  /** `price >= bound`; every comparison with `NaN` is false. */
  predicate AtLeast(price: real, bound: ParsedInt) {
    bound.Int? && price >= bound.n as real
  }

  /** `price <= bound`; every comparison with `NaN` is false. */
  predicate AtMost(price: real, bound: ParsedInt) {
    bound.Int? && price <= bound.n as real
  }

  datatype PriceRange = PriceRange(min: ParsedInt, max: ParsedInt)

  /** The bounds the page starts with. */
  const InitialRange := PriceRange(Int(0), Int(1000))

  datatype Bound = Min | Max

  /** `handlePriceRangeChange`: the chosen bound takes the parsed value; the other is kept. */
  function HandlePriceRangeChange(range: PriceRange, bound: Bound, value: ParsedInt): (r: PriceRange)
    ensures bound == Min ==> r.min == value && r.max == range.max
    ensures bound == Max ==> r.max == value && r.min == range.min
  {
    match bound
    case Min => range.(min := value)
    case Max => range.(max := value)
  }

  /** The category filter: the selection compared exactly, with case. */
  predicate CategoryOk(p: Product, selected: string) {
    selected == AllCategories || p.category == selected
  }

  /** The price filter, inclusive at both ends. */
  predicate PriceOk(p: Product, range: PriceRange) {
    AtLeast(p.price, range.min) && AtMost(p.price, range.max)
  }

  /** The sort options the selector offers; any other value, the empty "Featured" included, sorts nothing. */
  function ParseSortOption(option: string): Option<SortOrder> {
    if option == "price-low-high" then Some(PriceAscending)
    else if option == "price-high-low" then Some(PriceDescending)
    else if option == "rating" then Some(RateDescending)
    else if option == "popularity" then Some(CountDescending)
    else None
  }

  /** The products both filters keep, in catalog order. */
  function Kept(products: seq<Product>, selected: string, range: PriceRange): seq<Product> {
    var byCategory := if selected != AllCategories then Filter(products, (p: Product) => p.category == selected) else products;
    Filter(byCategory, (p: Product) => PriceOk(p, range))
  }

  /** What the listing shows: the kept products, stably sorted by the chosen option. */
  function Listing(products: seq<Product>, selected: string, option: string, range: PriceRange): seq<Product> {
    var kept := Kept(products, selected, range);
    match ParseSortOption(option)
    case Some(o) => InsertionSort(o, kept)
    case None => kept
  }

  /**
   * `applyFilters`: copies the catalog, filters by category unless 'all', filters
   * by price, then sorts the copy in place. The catalog itself is a value and is
   * not changed.
   */
  method ApplyFilters(products: seq<Product>, selected: string, option: string, range: PriceRange)
    returns (result: seq<Product>)
    ensures result == Listing(products, selected, option, range)
  {
    result := products;
    if selected != AllCategories {
      result := Filter(result, (p: Product) => p.category == selected);
    }
    result := Filter(result, (p: Product) => PriceOk(p, range));
    var order := ParseSortOption(option);
    if order.Some? {
      var a := new Product[|result|](k requires 0 <= k < |result| => result[k]);
      assert a[..] == result;
      SortInPlace(order.value, a);
      result := a[..];
    }
  }

  /** A product is in the kept list exactly when it is in the catalog and passes both filters. */
  lemma KeptIff(products: seq<Product>, selected: string, range: PriceRange, p: Product)
    ensures p in Kept(products, selected, range) <==>
      p in products && CategoryOk(p, selected) && PriceOk(p, range)
  {
  }

  /** The kept list is an order-preserving subsequence of the catalog. */
  lemma KeptIsSubsequence(products: seq<Product>, selected: string, range: PriceRange)
    ensures IsSubsequence(Kept(products, selected, range), products)
  {
    var byCategory := if selected != AllCategories then Filter(products, (p: Product) => p.category == selected) else products;
    FilterIsSubsequence(byCategory, (p: Product) => PriceOk(p, range));
    if selected != AllCategories {
      FilterIsSubsequence(products, (p: Product) => p.category == selected);
      SubsequenceTransitive(Kept(products, selected, range), byCategory, products);
    } else {
      assert byCategory == products;
    }
  }

  /** The kept list holds each product that passes both filters as often as the catalog does, and no other. */
  lemma KeptMultiplicity(products: seq<Product>, selected: string, range: PriceRange, p: Product)
    ensures multiset(Kept(products, selected, range))[p] ==
      if CategoryOk(p, selected) && PriceOk(p, range) then multiset(products)[p] else 0
  {
    var byCategory := if selected != AllCategories then Filter(products, (p: Product) => p.category == selected) else products;
    FilterMultiset(byCategory, (p: Product) => PriceOk(p, range), p);
    if selected != AllCategories {
      FilterMultiset(products, (p: Product) => p.category == selected, p);
    }
  }

  /** The listing is a permutation of the kept list, and holds each kept product as often as the catalog does. */
  lemma ListingPermutesKept(products: seq<Product>, selected: string, option: string, range: PriceRange)
    ensures multiset(Listing(products, selected, option, range)) == multiset(Kept(products, selected, range))
    ensures forall p :: p in Listing(products, selected, option, range) <==>
      p in products && CategoryOk(p, selected) && PriceOk(p, range)
    ensures forall p ::
      multiset(Listing(products, selected, option, range))[p] ==
      (if CategoryOk(p, selected) && PriceOk(p, range) then multiset(products)[p] else 0)
  {
    var kept := Kept(products, selected, range);
    forall p ensures multiset(kept)[p] ==
      if CategoryOk(p, selected) && PriceOk(p, range) then multiset(products)[p] else 0 {
      KeptMultiplicity(products, selected, range, p);
    }
    if ParseSortOption(option).Some? {
      InsertionSortCorrect(ParseSortOption(option).value, kept);
    }
    forall p ensures p in Listing(products, selected, option, range) <==> p in kept {
      assert p in Listing(products, selected, option, range) <==> p in multiset(Listing(products, selected, option, range));
    }
  }

  /** With a recognised option the listing is sorted by it; with any other it keeps catalog order. */
  lemma ListingOrder(products: seq<Product>, selected: string, option: string, range: PriceRange)
    ensures ParseSortOption(option).Some? ==> Sorted(ParseSortOption(option).value, Listing(products, selected, option, range))
    ensures ParseSortOption(option).None? ==> Listing(products, selected, option, range) == Kept(products, selected, range)
  {
    if ParseSortOption(option).Some? {
      InsertionSortCorrect(ParseSortOption(option).value, Kept(products, selected, range));
    }
  }

  /** What each comparator's order means in terms of the product fields. */
  lemma SortedMeaning(s: seq<Product>)
    ensures Sorted(PriceAscending, s) <==> forall i, j :: 0 <= i < j < |s| ==> s[i].price <= s[j].price
    ensures Sorted(PriceDescending, s) <==> forall i, j :: 0 <= i < j < |s| ==> s[i].price >= s[j].price
    ensures Sorted(RateDescending, s) <==> forall i, j :: 0 <= i < j < |s| ==> s[i].rating.rate >= s[j].rating.rate
    ensures Sorted(CountDescending, s) <==> forall i, j :: 0 <= i < j < |s| ==> s[i].rating.count >= s[j].rating.count
  {
  }

  /** Selecting 'all' applies no category filter. */
  lemma AllMeansNoCategoryFilter(products: seq<Product>, range: PriceRange)
    ensures Kept(products, AllCategories, range) == Filter(products, (p: Product) => PriceOk(p, range))
  {
  }

  /** On first render, with 'all' selected, a catalog priced within 0 to 1000 is shown whole and in catalog order. */
  lemma InitialListingShowsAll(products: seq<Product>)
    requires forall p :: p in products ==> 0.0 <= p.price <= 1000.0
    ensures Listing(products, AllCategories, "", InitialRange) == products
  {
    FilterAll(products, (p: Product) => PriceOk(p, InitialRange));
  }

  /** A minimum above the maximum, or a bound that did not parse, empties the listing. */
  lemma EmptyRange(products: seq<Product>, selected: string, option: string, range: PriceRange)
    requires range.min.NaN? || range.max.NaN? || range.min.n > range.max.n
    ensures Listing(products, selected, option, range) == []
  {
    var kept := Kept(products, selected, range);
    var byCategory := if selected != AllCategories then Filter(products, (p: Product) => p.category == selected) else products;
    FilterNone(byCategory, (p: Product) => PriceOk(p, range));
    assert kept == [];
  }
}
