/**
 * The products page: the product grid is the constant catalog narrowed by
 * a text search, a category, an "organic only" toggle, a price bucket and
 * custom price bounds, sorted by the selected key and shown twenty at a
 * time. Products can be marked as favourites.
 */
module Products {
  import opened Wrappers
  import opened Text
  import Seqs
  import StableSort
  import Pagination

  /** `PRODUCTS_PER_PAGE`. */
  const ProductsPerPage: nat := 20

  datatype Product = Product(
    id: int,
    name: string,
    vendor: string,
    price: real,
    distance: real,
    rating: real,
    isOrganic: bool,
    category: string,
    categories: seq<string>)

  /** A delivery location chosen in the location selector. */
  datatype Location = Location(id: int, name: string, distance: string)

  /** A price bucket; a `max` of `None` stands for `Infinity`. */
  datatype PriceRange = PriceRange(value: string, min: real, max: Option<real>)

  /** `priceRanges`, in the order `find` searches them. */
  const PriceRanges: seq<PriceRange> := [
    PriceRange("all", 0.0, None),
    PriceRange("up-to-50", 0.0, Some(50.0)),
    PriceRange("50-to-150", 50.0, Some(150.0)),
    PriceRange("150-to-300", 150.0, Some(300.0)),
    PriceRange("above-500", 300.0, None)
  ]

  /**
   * The state the filtering effect depends on. A custom bound is `None`
   * while its input is empty and otherwise holds the number typed.
   */
  datatype Query = Query(
    searchQuery: string,
    activeCategory: string,
    sortBy: string,
    currentLocation: Location,
    priceFilter: string,
    customPriceMin: Option<real>,
    customPriceMax: Option<real>,
    showOnlyOrganic: bool)

  const InitialLocation: Location := Location(1, "São Paulo, SP", "Atual")

  const InitialQuery: Query := Query("", "all", "relevance", InitialLocation, "all", None, None, false)

  /** `ranges.find(r => r.value === value)`: the first bucket with that value, if any. */
  function FindRange(ranges: seq<PriceRange>, value: string): (r: Option<PriceRange>)
    ensures r.None? <==> forall i :: 0 <= i < |ranges| ==> ranges[i].value != value
    ensures r.Some? ==> exists i :: 0 <= i < |ranges| && ranges[i] == r.value && ranges[i].value == value &&
                                    forall k :: 0 <= k < i ==> ranges[k].value != value
  {
    if ranges == [] then None
    else if ranges[0].value == value then Some(ranges[0])
    else
      var r := FindRange(ranges[1..], value);
      assert r.Some? ==> exists i :: 1 <= i < |ranges| && ranges[i] == r.value && ranges[i].value == value &&
                                     forall k :: 0 <= k < i ==> ranges[k].value != value by {
        if r.Some? {
          var i :| 0 <= i < |ranges[1..]| && ranges[1..][i] == r.value && ranges[1..][i].value == value &&
                   forall k :: 0 <= k < i ==> ranges[1..][k].value != value;
          assert forall k :: 1 <= k < i + 1 ==> ranges[k].value != value by {
            forall k | 1 <= k < i + 1 ensures ranges[k].value != value {
              assert ranges[k] == ranges[1..][k - 1];
            }
          }
        }
      }
      r
  }

  /** `price >= range.min && (range.max === Infinity || price <= range.max)`. */
  predicate InRange(range: PriceRange, price: real) {
    price >= range.min && (range.max.None? || price <= range.max.value)
  }

  /** The lower-cased `needle` occurs in the product's name, vendor name or one of its categories. */
  predicate MatchesSearch(p: Product, needle: string) {
    Contains(Lower(p.name), needle) || Contains(Lower(p.vendor), needle) || AnyContains(p.categories, needle)
  }

  predicate SearchStage(q: Query, p: Product) {
    Trim(q.searchQuery) == [] || MatchesSearch(p, Lower(q.searchQuery))
  }

  predicate CategoryStage(q: Query, p: Product) {
    q.activeCategory == "all" || p.category == q.activeCategory
  }

  predicate OrganicStage(q: Query, p: Product) {
    !q.showOnlyOrganic || p.isOrganic
  }

  /** The bucket stage: skipped for "all" and for a value no bucket has. */
  predicate BucketStage(q: Query, p: Product) {
    q.priceFilter == "all" ||
    match FindRange(PriceRanges, q.priceFilter)
    case None => true
    case Some(range) => InRange(range, p.price)
  }

  /** An empty minimum counts as 0 and an empty maximum as no limit. */
  function CustomRange(q: Query): PriceRange {
    PriceRange("custom", if q.customPriceMin.None? then 0.0 else q.customPriceMin.value, q.customPriceMax)
  }

  /** The custom-bounds stage: runs when at least one bound is filled in. */
  predicate CustomStage(q: Query, p: Product) {
    (q.customPriceMin.None? && q.customPriceMax.None?) || InRange(CustomRange(q), p.price)
  }

  predicate Passes(q: Query, p: Product) {
    SearchStage(q, p) && CategoryStage(q, p) && OrganicStage(q, p) && BucketStage(q, p) && CustomStage(q, p)
  }

  function PassesFn(q: Query): Product -> bool {
    p => Passes(q, p)
  }

  /** The sort callback; "relevance" and any unknown key sort by rating. */
  function Compare(sortBy: string, a: Product, b: Product): real {
    if sortBy == "price_low" then a.price - b.price
    else if sortBy == "price_high" then b.price - a.price
    else if sortBy == "rating" then b.rating - a.rating
    else if sortBy == "distance" then a.distance - b.distance
    else if sortBy == "newest" then (b.id - a.id) as real
    else b.rating - a.rating
  }

  function Cmp(sortBy: string): (Product, Product) -> real {
    (a, b) => Compare(sortBy, a, b)
  }

  /** The grid's full list for the catalog and `q`. */
  function Results(catalog: seq<Product>, q: Query): seq<Product> {
    StableSort.Sort(Seqs.Filter(catalog, PassesFn(q)), Cmp(q.sortBy))
  }

  lemma CompareConsistent(sortBy: string)
    ensures StableSort.Consistent(Cmp(sortBy))
  {
  }

  /** The list holds exactly the passing catalog products, each as often as in the catalog. */
  lemma ResultsArePassingProducts(catalog: seq<Product>, q: Query)
    ensures forall p :: multiset(Results(catalog, q))[p] == if Passes(q, p) then multiset(catalog)[p] else 0
    ensures forall i :: 0 <= i < |Results(catalog, q)| ==> Passes(q, Results(catalog, q)[i])
  {
    var r := Results(catalog, q);
    Seqs.FilterMultiplicity(catalog, PassesFn(q));
    StableSort.SortPermutes(Seqs.Filter(catalog, PassesFn(q)), Cmp(q.sortBy));
    forall i | 0 <= i < |r| ensures Passes(q, r[i]) {
      assert r[i] in multiset(r);
    }
  }

  /**
   * The query is stored trimmed; an empty query filters nothing, any other
   * keeps the products whose name, vendor or a category contains it.
   */
  lemma SearchStageMeaning(q: Query, p: Product)
    ensures SearchStage(q, p) <==> AllWhitespace(q.searchQuery) || MatchesSearch(p, Lower(q.searchQuery))
  {
    TrimEmptyIffAllWhitespace(q.searchQuery);
  }

  /**
   * The buckets: both bounds inclusive, no upper bound for "all" and
   * "above-500" (which starts at 300), and no filtering for a value that
   * names no bucket.
   */
  lemma BucketBounds(q: Query, p: Product)
    ensures q.priceFilter == "all" ==> BucketStage(q, p)
    ensures q.priceFilter == "up-to-50" ==> (BucketStage(q, p) <==> 0.0 <= p.price <= 50.0)
    ensures q.priceFilter == "50-to-150" ==> (BucketStage(q, p) <==> 50.0 <= p.price <= 150.0)
    ensures q.priceFilter == "150-to-300" ==> (BucketStage(q, p) <==> 150.0 <= p.price <= 300.0)
    ensures q.priceFilter == "above-500" ==> (BucketStage(q, p) <==> 300.0 <= p.price)
    ensures q.priceFilter !in {"all", "up-to-50", "50-to-150", "150-to-300", "above-500"} ==> BucketStage(q, p)
  {
    var f := q.priceFilter;
    if f == "up-to-50" {
      assert PriceRanges[1].value == f;
    } else if f == "50-to-150" {
      assert PriceRanges[2].value == f;
    } else if f == "150-to-300" {
      assert PriceRanges[3].value == f;
    } else if f == "above-500" {
      assert PriceRanges[4].value == f;
    }
  }

  /**
   * Custom bounds filter nothing while both are empty; otherwise a product
   * is kept when its price lies between them, both inclusive, an empty
   * minimum meaning 0 and an empty maximum no limit.
   */
  lemma CustomBounds(q: Query, p: Product)
    ensures q.customPriceMin.None? && q.customPriceMax.None? ==> CustomStage(q, p)
    ensures q.customPriceMin.Some? || q.customPriceMax.Some? ==>
      (CustomStage(q, p) <==>
         (q.customPriceMin.None? ==> p.price >= 0.0) &&
         (q.customPriceMin.Some? ==> p.price >= q.customPriceMin.value) &&
         (q.customPriceMax.Some? ==> p.price <= q.customPriceMax.value))
  {
  }

  /** The query after `handlePriceFilterClear`. */
  function ClearPrice(q: Query): Query {
    q.(priceFilter := "all", customPriceMin := None, customPriceMax := None)
  }

  /** After clearing the price filter no product is dropped for its price. */
  lemma ClearPriceKeepsEveryPrice(q: Query, p: Product)
    ensures Passes(ClearPrice(q), p) <==> SearchStage(q, p) && CategoryStage(q, p) && OrganicStage(q, p)
  {
  }

  /** With "organic only" on, every listed product is organic. */
  lemma OnlyOrganicListsOrganic(catalog: seq<Product>, q: Query)
    requires q.showOnlyOrganic
    ensures forall i :: 0 <= i < |Results(catalog, q)| ==> Results(catalog, q)[i].isOrganic
  {
    ResultsArePassingProducts(catalog, q);
  }

  /** The delivery location, although the effect depends on it, does not change the list. */
  lemma LocationDoesNotFilter(catalog: seq<Product>, q: Query, loc: Location)
    ensures Results(catalog, q.(currentLocation := loc)) == Results(catalog, q)
  {
    Seqs.FilterAgree(catalog, PassesFn(q.(currentLocation := loc)), PassesFn(q));
  }

  /**
   * The list is ordered by the key: price ascending or descending, rating
   * descending (also for "relevance" and unknown keys), distance ascending,
   * newest (highest id) first.
   */
  lemma ResultsOrdered(catalog: seq<Product>, q: Query)
    ensures forall i, j :: 0 <= i < j < |Results(catalog, q)| ==>
      var a, b := Results(catalog, q)[i], Results(catalog, q)[j];
      if q.sortBy == "price_low" then a.price <= b.price
      else if q.sortBy == "price_high" then a.price >= b.price
      else if q.sortBy == "distance" then a.distance <= b.distance
      else if q.sortBy == "newest" then a.id >= b.id
      else a.rating >= b.rating
  {
    var r, cmp := Results(catalog, q), Cmp(q.sortBy);
    CompareConsistent(q.sortBy);
    StableSort.SortSorted(Seqs.Filter(catalog, PassesFn(q)), cmp);
    forall i, j | 0 <= i < j < |r|
      ensures var a, b := r[i], r[j];
        if q.sortBy == "price_low" then a.price <= b.price
        else if q.sortBy == "price_high" then a.price >= b.price
        else if q.sortBy == "distance" then a.distance <= b.distance
        else if q.sortBy == "newest" then a.id >= b.id
        else a.rating >= b.rating
    {
      assert Compare(q.sortBy, r[i], r[j]) <= 0.0;
    }
  }

  /** Products that tie on the key keep their catalog order. */
  lemma ResultsStable(catalog: seq<Product>, q: Query)
    ensures forall y :: StableSort.Ties(Results(catalog, q), Cmp(q.sortBy), y) ==
                        StableSort.Ties(Seqs.Filter(catalog, PassesFn(q)), Cmp(q.sortBy), y)
  {
    CompareConsistent(q.sortBy);
    forall y ensures StableSort.Ties(Results(catalog, q), Cmp(q.sortBy), y) ==
                     StableSort.Ties(Seqs.Filter(catalog, PassesFn(q)), Cmp(q.sortBy), y) {
      StableSort.SortStable(Seqs.Filter(catalog, PassesFn(q)), Cmp(q.sortBy), y);
    }
  }

  /** Keeps every favourite except `id`. */
  function Other(id: int): int -> bool {
    x => x != id
  }

  /**
   * The favourites after toggling `id`: every copy of `id` is removed when
   * it is present, and it is appended when it is not.
   */
  function Toggled(favorites: seq<int>, id: int): (r: seq<int>)
    ensures id in r <==> id !in favorites
    ensures forall x :: x != id ==> (x in r <==> x in favorites)
  {
    if id in favorites then
      Seqs.FilterMultiplicity(favorites, Other(id));
      Seqs.Filter(favorites, Other(id))
    else favorites + [id]
  }

  /** Toggling changes the count of `id` alone, and the other favourites keep their order. */
  lemma ToggledCounts(favorites: seq<int>, id: int)
    ensures multiset(Toggled(favorites, id)) ==
      if id in favorites then multiset(favorites)[id := 0] else multiset(favorites) + multiset{id}
    ensures Seqs.Filter(Toggled(favorites, id), Other(id)) == Seqs.Filter(favorites, Other(id))
  {
    Seqs.FilterMultiplicity(favorites, Other(id));
    if id in favorites {
      var r := Toggled(favorites, id);
      Seqs.FilterKeepsAll(r, Other(id));
    } else {
      Seqs.FilterSnoc(favorites, id, Other(id));
    }
  }

  /** Toggling an id that is not a favourite twice gives back the same list. */
  lemma ToggleTwiceRestores(favorites: seq<int>, id: int)
    requires id !in favorites
    ensures Toggled(Toggled(favorites, id), id) == favorites
  {
    Seqs.FilterSnoc(favorites, id, Other(id));
    Seqs.FilterKeepsAll(favorites, Other(id));
  }

  /** Toggling twice always restores which ids are favourites. */
  lemma ToggleTwiceSameMembers(favorites: seq<int>, id: int)
    ensures forall x :: x in Toggled(Toggled(favorites, id), id) <==> x in favorites
  {
  }

  /** Every id occurs at most once. */
  ghost predicate NoDuplicates(s: seq<int>) {
    forall x :: multiset(s)[x] <= 1
  }

  /** A favourites list without repeats keeps none after a toggle. */
  lemma ToggledNoDuplicates(favorites: seq<int>, id: int)
    requires NoDuplicates(favorites)
    ensures NoDuplicates(Toggled(favorites, id))
  {
    ToggledCounts(favorites, id);
  }

  /** The products page's list, paging and favourites. */
  class ProductsPage {
    const catalog: seq<Product>
    var query: Query
    var filteredProducts: seq<Product>
    var currentPage: nat
    var hasMore: bool
    var favoriteProducts: seq<int>

    /** After every effect run the list, page and flag agree with the query. */
    ghost predicate Valid()
      reads this
    {
      filteredProducts == Results(catalog, query) &&
      currentPage >= 1 &&
      hasMore == (|filteredProducts| > ProductsPerPage)
    }

    /** The page after mounting: favourites restored, the filter effect run once. */
    constructor(mockProducts: seq<Product>, savedFavorites: seq<int>)
      ensures Valid()
      ensures catalog == mockProducts && query == InitialQuery
      ensures currentPage == 1 && favoriteProducts == savedFavorites
    {
      catalog := mockProducts;
      query := InitialQuery;
      filteredProducts := [];
      currentPage := 1;
      hasMore := true;
      favoriteProducts := savedFavorites;
      new;
      FilterProducts();
    }

    /** `filterProducts`: the stages, the in-place sort, then page 1. */
    method FilterProducts()
      modifies this
      ensures Valid() && currentPage == 1
      ensures query == old(query) && favoriteProducts == old(favoriteProducts)
    {
      var filtered := FilterStages(catalog, query);
      filteredProducts := StableSort.SortCopy(filtered, Cmp(query.sortBy));
      currentPage := 1;
      hasMore := |filteredProducts| > ProductsPerPage;
    }

    /** `loadMoreProducts`: one more page. */
    method LoadMoreProducts()
      requires Valid()
      modifies this
      ensures Valid() && currentPage == old(currentPage) + 1
      ensures query == old(query) && filteredProducts == old(filteredProducts)
      ensures favoriteProducts == old(favoriteProducts)
    {
      currentPage := currentPage + 1;
    }

    /** Setting state the effect depends on: the effect runs again, and resets the page, on a change. */
    method SetQuery(q: Query)
      requires Valid()
      modifies this
      ensures Valid() && query == q
      ensures currentPage == if q == old(query) then old(currentPage) else 1
      ensures favoriteProducts == old(favoriteProducts)
    {
      if q != query {
        query := q;
        FilterProducts();
      }
    }

    /** `handleSearch`: the query is stored trimmed. */
    method HandleSearch(text: string)
      requires Valid()
      modifies this
      ensures Valid() && query == old(query).(searchQuery := Trim(text))
      ensures currentPage == if query == old(query) then old(currentPage) else 1
      ensures favoriteProducts == old(favoriteProducts)
    {
      SetQuery(query.(searchQuery := Trim(text)));
    }

    /** `handleClearSearch`. */
    method HandleClearSearch()
      requires Valid()
      modifies this
      ensures Valid() && query == old(query).(searchQuery := "")
      ensures currentPage == if query == old(query) then old(currentPage) else 1
      ensures favoriteProducts == old(favoriteProducts)
    {
      SetQuery(query.(searchQuery := ""));
    }

    /** `handleLocationChange`: changes no product, but a new location re-runs the filter. */
    method HandleLocationChange(loc: Location)
      requires Valid()
      modifies this
      ensures Valid() && query == old(query).(currentLocation := loc)
      ensures currentPage == if query == old(query) then old(currentPage) else 1
      ensures favoriteProducts == old(favoriteProducts)
    {
      SetQuery(query.(currentLocation := loc));
    }

    /** `handlePriceFilterClear`: the three setters are applied in one update. */
    method HandlePriceFilterClear()
      requires Valid()
      modifies this
      ensures Valid() && query == ClearPrice(old(query))
      ensures currentPage == if query == old(query) then old(currentPage) else 1
      ensures favoriteProducts == old(favoriteProducts)
    {
      SetQuery(ClearPrice(query));
    }

    /** `handleFavoriteToggle`. */
    method HandleFavoriteToggle(productId: int)
      requires Valid()
      modifies this
      ensures Valid() && favoriteProducts == Toggled(old(favoriteProducts), productId)
      ensures query == old(query) && filteredProducts == old(filteredProducts)
      ensures currentPage == old(currentPage)
    {
      var updated: seq<int>;
      if productId in favoriteProducts {
        updated := Seqs.Filter(favoriteProducts, Other(productId));
      } else {
        updated := favoriteProducts + [productId];
      }
      favoriteProducts := updated;
    }

    /** `displayedProducts`. */
    function DisplayedProducts(): seq<Product>
      reads this
    {
      Pagination.Displayed(filteredProducts, currentPage, ProductsPerPage)
    }

    /** `hasMoreToShow`. */
    function HasMoreToShow(): bool
      reads this
    {
      Pagination.HasMoreToShow(filteredProducts, currentPage, ProductsPerPage)
    }
  }

  /** The stages that do not look at the price. */
  predicate BeforePrice(q: Query, p: Product) {
    SearchStage(q, p) && CategoryStage(q, p) && OrganicStage(q, p)
  }

  function BeforePriceFn(q: Query): Product -> bool {
    p => BeforePrice(q, p)
  }

  /**
   * The filtering half of `filterProducts`: each active stage in turn
   * narrows the list.
   */
  method FilterStages(catalog: seq<Product>, q: Query) returns (filtered: seq<Product>)
    ensures filtered == Seqs.Filter(catalog, PassesFn(q))
  {
    filtered := TextStages(catalog, q);
    filtered := PriceStages(catalog, q, filtered);
  }

  /** The search, category and organic stages. */
  method TextStages(catalog: seq<Product>, q: Query) returns (filtered: seq<Product>)
    ensures filtered == Seqs.Filter(catalog, BeforePriceFn(q))
  {
    filtered := catalog;
    ghost var before: Product -> bool := _ => true;
    Seqs.FilterKeepsAll(catalog, before);

    ghost var s1: Product -> bool := p => SearchStage(q, p);
    var searching := Trim(q.searchQuery) != [];
    if searching {
      var needle := Lower(q.searchQuery);
      var matches: Product -> bool := p => MatchesSearch(p, needle);
      filtered := Seqs.Filter(filtered, matches);
      Seqs.FilterAgree(catalog, matches, s1);
    }
    Seqs.FilterStage(catalog, before, s1, searching, s1);

    var byCategory := q.activeCategory != "all";
    var inCategory: Product -> bool := (p: Product) => p.category == q.activeCategory;
    if byCategory {
      filtered := Seqs.Filter(filtered, inCategory);
    }
    ghost var s2: Product -> bool := p => SearchStage(q, p) && CategoryStage(q, p);
    Seqs.FilterStage(catalog, s1, inCategory, byCategory, s2);

    var organic: Product -> bool := (p: Product) => p.isOrganic;
    if q.showOnlyOrganic {
      filtered := Seqs.Filter(filtered, organic);
    }
    Seqs.FilterStage(catalog, s2, organic, q.showOnlyOrganic, BeforePriceFn(q));
  }

  /** The bucket and custom-bounds stages, applied to the list the other stages left. */
  method PriceStages(catalog: seq<Product>, q: Query, before: seq<Product>) returns (filtered: seq<Product>)
    requires before == Seqs.Filter(catalog, BeforePriceFn(q))
    ensures filtered == Seqs.Filter(catalog, PassesFn(q))
  {
    filtered := before;
    ghost var s3 := BeforePriceFn(q);

    ghost var s4: Product -> bool := p => s3(p) && BucketStage(q, p);
    if q.priceFilter != "all" {
      var range := FindRange(PriceRanges, q.priceFilter);
      if range.Some? {
        var inRange: Product -> bool := (p: Product) => InRange(range.value, p.price);
        filtered := Seqs.Filter(filtered, inRange);
        Seqs.FilterStage(catalog, s3, inRange, true, s4);
      } else {
        Seqs.FilterAgree(catalog, s3, s4);
      }
    } else {
      Seqs.FilterAgree(catalog, s3, s4);
    }

    var custom := q.customPriceMin.Some? || q.customPriceMax.Some?;
    var inCustom: Product -> bool := (p: Product) => InRange(CustomRange(q), p.price);
    if custom {
      filtered := Seqs.Filter(filtered, inCustom);
    }
    Seqs.FilterStage(catalog, s4, inCustom, custom, PassesFn(q));
  }
}
