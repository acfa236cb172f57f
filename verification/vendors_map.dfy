/**
 * The vendors map page: the vendor list beside the map is the loaded
 * vendors, narrowed by a text search, a category and an "open now" toggle,
 * and sorted by the selected key. Clicking a vendor selects it and centres
 * the map on it.
 */
module VendorsMap {
  import opened Wrappers
  import opened Text
  import Seqs
  import StableSort

  datatype LatLng = LatLng(lat: real, lng: real)

  /** A delivery location chosen in the location selector. */
  datatype Location = Location(id: int, name: string, distance: string)

  const InitialLocation: Location := Location(1, "São Paulo, SP", "Atual")

  datatype Vendor = Vendor(
    id: int,
    name: string,
    rating: real,
    reviewCount: int,
    location: string,
    coordinates: LatLng,
    categories: seq<string>,
    isOpen: bool,
    productCount: int,
    distance: real,
    category: string)

  /** The state the filtering effect depends on, besides the vendors themselves. */
  datatype Query = Query(searchQuery: string, activeCategory: string, sortBy: string, onlyOpen: bool)

  const InitialQuery: Query := Query("", "all", "distance", false)

  /** The map's centre before any vendor is selected (São Paulo). */
  const DefaultCenter: LatLng := LatLng(-23.5505, -46.6333)

  /** The lower-cased `needle` occurs in the vendor's name, location or one of its categories. */
  predicate MatchesSearch(v: Vendor, needle: string) {
    Contains(Lower(v.name), needle) || Contains(Lower(v.location), needle) || AnyContains(v.categories, needle)
  }

  /** The search stage runs only for a query that is not blank once trimmed; it matches the untrimmed query. */
  predicate SearchStage(q: Query, v: Vendor) {
    Trim(q.searchQuery) == [] || MatchesSearch(v, Lower(q.searchQuery))
  }

  predicate CategoryStage(q: Query, v: Vendor) {
    q.activeCategory == "all" || v.category == q.activeCategory
  }

  predicate OpenStage(q: Query, v: Vendor) {
    !q.onlyOpen || v.isOpen
  }

  /** A vendor is listed when it passes every stage. */
  predicate Passes(q: Query, v: Vendor) {
    SearchStage(q, v) && CategoryStage(q, v) && OpenStage(q, v)
  }

  function PassesFn(q: Query): Vendor -> bool {
    v => Passes(q, v)
  }

  /** The sort callback: negative when `a` is listed before `b`. */
  function Compare(sortBy: string, a: Vendor, b: Vendor): real {
    if sortBy == "rating" then b.rating - a.rating
    else if sortBy == "name" then StrCompare(a.name, b.name) as real
    else if sortBy == "products" then (b.productCount - a.productCount) as real
    else if sortBy == "reviews" then (b.reviewCount - a.reviewCount) as real
    else a.distance - b.distance
  }

  function Cmp(sortBy: string): (Vendor, Vendor) -> real {
    (a, b) => Compare(sortBy, a, b)
  }

  /** The list the page shows for `vendors` and `q`. */
  function Results(vendors: seq<Vendor>, q: Query): seq<Vendor> {
    StableSort.Sort(Seqs.Filter(vendors, PassesFn(q)), Cmp(q.sortBy))
  }

  /** Every sort key orders the vendors consistently. */
  lemma CompareConsistent(sortBy: string)
    ensures StableSort.Consistent(Cmp(sortBy))
  {
    var cmp := Cmp(sortBy);
    forall a, b ensures cmp(a, b) < 0.0 <==> cmp(b, a) > 0.0 {
      StrCompareAntisymmetric(a.name, b.name);
    }
    forall a, b, c | cmp(a, b) <= 0.0 && cmp(b, c) <= 0.0 ensures cmp(a, c) <= 0.0 {
      if sortBy == "name" {
        StrCompareTransitive(a.name, b.name, c.name);
      }
    }
  }

  /**
   * The list holds exactly the vendors that pass every active stage, each
   * as often as in the loaded list: nothing invented, nothing duplicated.
   */
  lemma ResultsArePassingVendors(vendors: seq<Vendor>, q: Query)
    ensures forall v :: multiset(Results(vendors, q))[v] == if Passes(q, v) then multiset(vendors)[v] else 0
    ensures forall i :: 0 <= i < |Results(vendors, q)| ==> Passes(q, Results(vendors, q)[i])
  {
    var r := Results(vendors, q);
    Seqs.FilterMultiplicity(vendors, PassesFn(q));
    StableSort.SortPermutes(Seqs.Filter(vendors, PassesFn(q)), Cmp(q.sortBy));
    forall i | 0 <= i < |r| ensures Passes(q, r[i]) {
      assert r[i] in multiset(r);
    }
  }

  /**
   * A query that is empty or all whitespace filters nothing; any other
   * query keeps a vendor exactly when its lower-cased form occurs in the
   * vendor's name, location or a category.
   */
  lemma SearchStageMeaning(q: Query, v: Vendor)
    ensures SearchStage(q, v) <==> AllWhitespace(q.searchQuery) || MatchesSearch(v, Lower(q.searchQuery))
  {
    TrimEmptyIffAllWhitespace(q.searchQuery);
  }

  /** A category other than "all" lists only vendors of exactly that category. */
  lemma CategoryIsExact(vendors: seq<Vendor>, q: Query)
    requires q.activeCategory != "all"
    ensures forall i :: 0 <= i < |Results(vendors, q)| ==> Results(vendors, q)[i].category == q.activeCategory
  {
    ResultsArePassingVendors(vendors, q);
  }

  /** With "open now" on, every listed vendor is open. */
  lemma OnlyOpenListsOpen(vendors: seq<Vendor>, q: Query)
    requires q.onlyOpen
    ensures forall i :: 0 <= i < |Results(vendors, q)| ==> Results(vendors, q)[i].isOpen
  {
    ResultsArePassingVendors(vendors, q);
  }

  /**
   * The list is ordered by the selected key: rating, product count and
   * review count descending, name in string order, and distance ascending
   * for "distance" and any other key.
   */
  lemma ResultsOrdered(vendors: seq<Vendor>, q: Query)
    ensures forall i, j :: 0 <= i < j < |Results(vendors, q)| ==>
      var a, b := Results(vendors, q)[i], Results(vendors, q)[j];
      if q.sortBy == "rating" then a.rating >= b.rating
      else if q.sortBy == "name" then StrCompare(a.name, b.name) <= 0
      else if q.sortBy == "products" then a.productCount >= b.productCount
      else if q.sortBy == "reviews" then a.reviewCount >= b.reviewCount
      else a.distance <= b.distance
  {
    var r, cmp := Results(vendors, q), Cmp(q.sortBy);
    CompareConsistent(q.sortBy);
    StableSort.SortSorted(Seqs.Filter(vendors, PassesFn(q)), cmp);
    forall i, j | 0 <= i < j < |r|
      ensures var a, b := r[i], r[j];
        if q.sortBy == "rating" then a.rating >= b.rating
        else if q.sortBy == "name" then StrCompare(a.name, b.name) <= 0
        else if q.sortBy == "products" then a.productCount >= b.productCount
        else if q.sortBy == "reviews" then a.reviewCount >= b.reviewCount
        else a.distance <= b.distance
    {
      assert Compare(q.sortBy, r[i], r[j]) <= 0.0;
    }
  }

  /**
   * Vendors that tie on the key keep their order in the loaded list, and
   * this makes the list the only one ordered by the key with that property.
   */
  lemma ResultsStable(vendors: seq<Vendor>, q: Query)
    ensures forall y :: StableSort.Ties(Results(vendors, q), Cmp(q.sortBy), y) ==
                        StableSort.Ties(Seqs.Filter(vendors, PassesFn(q)), Cmp(q.sortBy), y)
  {
    CompareConsistent(q.sortBy);
    forall y ensures StableSort.Ties(Results(vendors, q), Cmp(q.sortBy), y) ==
                     StableSort.Ties(Seqs.Filter(vendors, PassesFn(q)), Cmp(q.sortBy), y) {
      StableSort.SortStable(Seqs.Filter(vendors, PassesFn(q)), Cmp(q.sortBy), y);
    }
  }

  /**
   * The filtering half of `filterAndSortVendors`: each active stage in
   * turn narrows the list.
   */
  method FilterStages(vendors: seq<Vendor>, q: Query) returns (filtered: seq<Vendor>)
    ensures filtered == Seqs.Filter(vendors, PassesFn(q))
  {
    filtered := vendors;
    ghost var before: Vendor -> bool := _ => true;
    Seqs.FilterKeepsAll(vendors, before);

    ghost var s1: Vendor -> bool := v => SearchStage(q, v);
    var searching := Trim(q.searchQuery) != [];
    if searching {
      var needle := Lower(q.searchQuery);
      var matches: Vendor -> bool := v => MatchesSearch(v, needle);
      filtered := Seqs.Filter(filtered, matches);
      Seqs.FilterAgree(vendors, matches, s1);
    }
    Seqs.FilterStage(vendors, before, s1, searching, s1);

    var byCategory := q.activeCategory != "all";
    var inCategory: Vendor -> bool := (v: Vendor) => v.category == q.activeCategory;
    if byCategory {
      filtered := Seqs.Filter(filtered, inCategory);
    }
    ghost var s2: Vendor -> bool := v => SearchStage(q, v) && CategoryStage(q, v);
    Seqs.FilterStage(vendors, s1, inCategory, byCategory, s2);

    var open: Vendor -> bool := (v: Vendor) => v.isOpen;
    if q.onlyOpen {
      filtered := Seqs.Filter(filtered, open);
    }
    Seqs.FilterStage(vendors, s2, open, q.onlyOpen, PassesFn(q));
  }

  /** The page's list, selection and map state. */
  class VendorsMapPage {
    var vendors: seq<Vendor>
    var filteredVendors: seq<Vendor>
    var query: Query
    var selectedVendor: Option<Vendor>
    var mapCenter: LatLng
    var userLocation: Option<LatLng>
    var currentLocation: Location

    /** Once the filtering effect has run, the list is the function of the state. */
    ghost predicate Valid()
      reads this
    {
      filteredVendors == Results(vendors, query)
    }

    /**
     * The page after mounting: the mock vendors are loaded, the effect has
     * run, and when the browser reported a `position` the map is centred
     * on it.
     */
    constructor(mockVendors: seq<Vendor>, position: Option<LatLng>)
      ensures Valid()
      ensures vendors == mockVendors && query == InitialQuery && currentLocation == InitialLocation
      ensures selectedVendor == None && userLocation == position
      ensures mapCenter == if position.Some? then position.value else DefaultCenter
    {
      vendors := mockVendors;
      filteredVendors := mockVendors;
      query := InitialQuery;
      selectedVendor := None;
      mapCenter := DefaultCenter;
      userLocation := None;
      currentLocation := InitialLocation;
      new;
      if position.Some? {
        userLocation := position;
        mapCenter := position.value;
      }
      FilterAndSortVendors();
    }

    /** `filterAndSortVendors`: the filter stages, then the in-place sort. */
    method FilterAndSortVendors()
      modifies this
      ensures Valid()
      ensures vendors == old(vendors) && query == old(query)
      ensures selectedVendor == old(selectedVendor) && mapCenter == old(mapCenter)
      ensures userLocation == old(userLocation) && currentLocation == old(currentLocation)
    {
      var filtered := FilterStages(vendors, query);
      filteredVendors := StableSort.SortCopy(filtered, Cmp(query.sortBy));
    }

    /**
     * Changing any state the effect depends on: the effect runs again
     * when the value changed.
     */
    method SetQuery(q: Query)
      requires Valid()
      modifies this
      ensures Valid() && query == q
      ensures vendors == old(vendors) && currentLocation == old(currentLocation) && userLocation == old(userLocation)
      ensures selectedVendor == old(selectedVendor) && mapCenter == old(mapCenter)
      ensures q == old(query) ==> filteredVendors == old(filteredVendors)
    {
      if q != query {
        query := q;
        FilterAndSortVendors();
      }
    }

    /** `handleSearch`: the query is stored as typed, without trimming. */
    method HandleSearch(text: string)
      requires Valid()
      modifies this
      ensures Valid() && query == old(query).(searchQuery := text)
      ensures vendors == old(vendors) && currentLocation == old(currentLocation) && userLocation == old(userLocation)
      ensures selectedVendor == old(selectedVendor) && mapCenter == old(mapCenter)
    {
      SetQuery(query.(searchQuery := text));
    }

    /** `handleClearSearch`. */
    method HandleClearSearch()
      requires Valid()
      modifies this
      ensures Valid() && query == old(query).(searchQuery := "")
      ensures vendors == old(vendors) && currentLocation == old(currentLocation) && userLocation == old(userLocation)
      ensures selectedVendor == old(selectedVendor) && mapCenter == old(mapCenter)
    {
      SetQuery(query.(searchQuery := ""));
    }

    /**
     * `handleLocationChange`: the location is not among the effect's
     * dependencies, so the list stays as it is.
     */
    method HandleLocationChange(loc: Location)
      requires Valid()
      modifies this
      ensures Valid() && currentLocation == loc
      ensures vendors == old(vendors) && query == old(query) && filteredVendors == old(filteredVendors)
      ensures selectedVendor == old(selectedVendor) && mapCenter == old(mapCenter) && userLocation == old(userLocation)
    {
      currentLocation := loc;
    }

    /** `handleVendorClick`: select the vendor and centre the map on its coordinates. */
    method HandleVendorClick(v: Vendor)
      requires Valid()
      modifies this
      ensures Valid()
      ensures selectedVendor == Some(v) && mapCenter == v.coordinates
      ensures vendors == old(vendors) && query == old(query) && filteredVendors == old(filteredVendors)
      ensures currentLocation == old(currentLocation) && userLocation == old(userLocation)
    {
      selectedVendor := Some(v);
      mapCenter := v.coordinates;
    }
  }
}
