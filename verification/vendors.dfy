/**
 * The vendors page: the vendor grid is the full vendor list narrowed by a
 * text search, a status filter and a fixed 5 km radius, sorted with
 * sponsored vendors first and then by the selected key, and shown eight
 * at a time.
 */
module Vendors {
  import opened Wrappers
  import opened Text
  import Seqs
  import StableSort
  import Pagination

  /** `VENDORS_PER_PAGE`. */
  const VendorsPerPage: nat := 8

  /** The fixed search radius, in kilometres. */
  const MaxDistance: real := 5.0

  /** The rating from which a vendor counts as popular. */
  const PopularRating: real := 4.5

  datatype Vendor = Vendor(
    id: int,
    name: string,
    rating: real,
    reviewCount: int,
    distance: real,
    location: string,
    categories: seq<string>,
    isOpen: bool,
    isSponsored: bool,
    productCount: int)

  datatype Location = Location(id: int, name: string, distance: string)

  /** The state the filtering effect depends on, besides the loaded vendors. */
  datatype Query = Query(searchQuery: string, currentLocation: Location, sortBy: string, statusFilter: string)

  const InitialLocation: Location := Location(1, "São Paulo, SP", "Atual")

  const InitialQuery: Query := Query("", InitialLocation, "distance", "")

  predicate MatchesSearch(v: Vendor, needle: string) {
    Contains(Lower(v.name), needle) || Contains(Lower(v.location), needle) || AnyContains(v.categories, needle)
  }

  predicate SearchStage(q: Query, v: Vendor) {
    Trim(q.searchQuery) == [] || MatchesSearch(v, Lower(q.searchQuery))
  }

  /** "open" keeps open vendors, "popular" well-rated ones, any other value everything. */
  predicate StatusStage(q: Query, v: Vendor) {
    if q.statusFilter == "open" then v.isOpen
    else if q.statusFilter == "popular" then v.rating >= PopularRating
    else true
  }

  predicate DistanceStage(v: Vendor) {
    v.distance <= MaxDistance
  }

  predicate Passes(q: Query, v: Vendor) {
    SearchStage(q, v) && StatusStage(q, v) && DistanceStage(v)
  }

  function PassesFn(q: Query): Vendor -> bool {
    v => Passes(q, v)
  }

  /** The key comparison, used between two vendors of the same sponsorship; 0 for an unknown key. */
  function KeyCompare(sortBy: string, a: Vendor, b: Vendor): real {
    if sortBy == "distance" then a.distance - b.distance
    else if sortBy == "rating" then b.rating - a.rating
    else if sortBy == "name" then StrCompare(a.name, b.name) as real
    else if sortBy == "products" then (b.productCount - a.productCount) as real
    else if sortBy == "reviews" then (b.reviewCount - a.reviewCount) as real
    else 0.0
  }

  /** The sort callback: a sponsored vendor before one that is not, otherwise by key. */
  function Compare(sortBy: string, a: Vendor, b: Vendor): real {
    if a.isSponsored && !b.isSponsored then -1.0
    else if !a.isSponsored && b.isSponsored then 1.0
    else KeyCompare(sortBy, a, b)
  }

  function Cmp(sortBy: string): (Vendor, Vendor) -> real {
    (a, b) => Compare(sortBy, a, b)
  }

  function Results(catalog: seq<Vendor>, q: Query): seq<Vendor> {
    StableSort.Sort(Seqs.Filter(catalog, PassesFn(q)), Cmp(q.sortBy))
  }

  lemma CompareConsistent(sortBy: string)
    ensures StableSort.Consistent(Cmp(sortBy))
  {
    var cmp := Cmp(sortBy);
    forall a, b ensures cmp(a, b) < 0.0 <==> cmp(b, a) > 0.0 {
      StrCompareAntisymmetric(a.name, b.name);
    }
    forall a, b, c | cmp(a, b) <= 0.0 && cmp(b, c) <= 0.0 ensures cmp(a, c) <= 0.0 {
      if sortBy == "name" && a.isSponsored == b.isSponsored == c.isSponsored {
        StrCompareTransitive(a.name, b.name, c.name);
      }
    }
  }

  /** The list holds exactly the passing vendors, each as often as in the full list. */
  lemma ResultsArePassingVendors(catalog: seq<Vendor>, q: Query)
    ensures forall v :: multiset(Results(catalog, q))[v] == if Passes(q, v) then multiset(catalog)[v] else 0
    ensures forall i :: 0 <= i < |Results(catalog, q)| ==> Passes(q, Results(catalog, q)[i])
  {
    var r := Results(catalog, q);
    Seqs.FilterMultiplicity(catalog, PassesFn(q));
    StableSort.SortPermutes(Seqs.Filter(catalog, PassesFn(q)), Cmp(q.sortBy));
    forall i | 0 <= i < |r| ensures Passes(q, r[i]) {
      assert r[i] in multiset(r);
    }
  }

  /** Whatever the query, status and key, no listed vendor is farther than 5 km. */
  lemma WithinRadius(catalog: seq<Vendor>, q: Query)
    ensures forall i :: 0 <= i < |Results(catalog, q)| ==> Results(catalog, q)[i].distance <= MaxDistance
  {
    ResultsArePassingVendors(catalog, q);
  }

  /** The status filter: "open" lists only open vendors, "popular" only those rated 4.5 or more. */
  lemma StatusMeaning(catalog: seq<Vendor>, q: Query)
    ensures q.statusFilter == "open" ==>
      forall i :: 0 <= i < |Results(catalog, q)| ==> Results(catalog, q)[i].isOpen
    ensures q.statusFilter == "popular" ==>
      forall i :: 0 <= i < |Results(catalog, q)| ==> Results(catalog, q)[i].rating >= PopularRating
    ensures q.statusFilter !in {"open", "popular"} ==> forall v :: StatusStage(q, v)
  {
    ResultsArePassingVendors(catalog, q);
  }

  /** A non-blank query keeps the vendors whose name, location or a category contains it. */
  lemma SearchStageMeaning(q: Query, v: Vendor)
    ensures SearchStage(q, v) <==> AllWhitespace(q.searchQuery) || MatchesSearch(v, Lower(q.searchQuery))
  {
    TrimEmptyIffAllWhitespace(q.searchQuery);
  }

  /** The list is ordered by the comparator (with a consistent comparator for every key). */
  lemma ResultsSorted(catalog: seq<Vendor>, q: Query)
    ensures StableSort.Sorted(Results(catalog, q), Cmp(q.sortBy))
  {
    CompareConsistent(q.sortBy);
    StableSort.SortSorted(Seqs.Filter(catalog, PassesFn(q)), Cmp(q.sortBy));
  }

  /** Vendors that tie under the comparator keep their full-list order. */
  lemma ResultsStable(catalog: seq<Vendor>, q: Query)
    ensures forall y :: StableSort.Ties(Results(catalog, q), Cmp(q.sortBy), y) ==
                        StableSort.Ties(Seqs.Filter(catalog, PassesFn(q)), Cmp(q.sortBy), y)
  {
    CompareConsistent(q.sortBy);
    forall y ensures StableSort.Ties(Results(catalog, q), Cmp(q.sortBy), y) ==
                     StableSort.Ties(Seqs.Filter(catalog, PassesFn(q)), Cmp(q.sortBy), y) {
      StableSort.SortStable(Seqs.Filter(catalog, PassesFn(q)), Cmp(q.sortBy), y);
    }
  }

  /** For every key, every sponsored vendor is listed before every vendor that is not. */
  lemma SponsoredFirst(catalog: seq<Vendor>, q: Query)
    ensures forall i, j :: 0 <= i < j < |Results(catalog, q)| && Results(catalog, q)[j].isSponsored ==>
      Results(catalog, q)[i].isSponsored
  {
    var r := Results(catalog, q);
    ResultsSorted(catalog, q);
    forall i, j | 0 <= i < j < |r| && r[j].isSponsored ensures r[i].isSponsored {
      assert Compare(q.sortBy, r[i], r[j]) <= 0.0;
    }
  }

  /**
   * Within one sponsorship group the key orders the list: distance
   * ascending; rating, product count and review count descending; names
   * in string order.
   */
  lemma GroupOrderedByKey(catalog: seq<Vendor>, q: Query)
    ensures forall i, j :: 0 <= i < j < |Results(catalog, q)| &&
                           Results(catalog, q)[i].isSponsored == Results(catalog, q)[j].isSponsored ==>
      var a, b := Results(catalog, q)[i], Results(catalog, q)[j];
      if q.sortBy == "distance" then a.distance <= b.distance
      else if q.sortBy == "rating" then a.rating >= b.rating
      else if q.sortBy == "name" then StrCompare(a.name, b.name) <= 0
      else if q.sortBy == "products" then a.productCount >= b.productCount
      else if q.sortBy == "reviews" then a.reviewCount >= b.reviewCount
      else true
  {
    var r := Results(catalog, q);
    ResultsSorted(catalog, q);
    forall i, j | 0 <= i < j < |r| && r[i].isSponsored == r[j].isSponsored
      ensures var a, b := r[i], r[j];
        if q.sortBy == "distance" then a.distance <= b.distance
        else if q.sortBy == "rating" then a.rating >= b.rating
        else if q.sortBy == "name" then StrCompare(a.name, b.name) <= 0
        else if q.sortBy == "products" then a.productCount >= b.productCount
        else if q.sortBy == "reviews" then a.reviewCount >= b.reviewCount
        else true
    {
      assert Compare(q.sortBy, r[i], r[j]) <= 0.0;
    }
  }

  function SponsoredFn(): Vendor -> bool {
    (v: Vendor) => v.isSponsored
  }

  function NotSponsoredFn(): Vendor -> bool {
    (v: Vendor) => !v.isSponsored
  }

  function SameSponsorshipFn(y: Vendor): Vendor -> bool {
    (v: Vendor) => v.isSponsored == y.isSponsored
  }

  /**
   * For a key the page does not know, the comparator only separates the
   * sponsored vendors from the rest, and the stable sort keeps the full
   * list's order inside each group.
   */
  lemma {:induction false} UnknownKeyKeepsListOrder(catalog: seq<Vendor>, q: Query)
    requires q.sortBy !in {"distance", "rating", "name", "products", "reviews"}
    ensures Results(catalog, q) ==
      Seqs.Filter(Seqs.Filter(catalog, PassesFn(q)), SponsoredFn()) +
      Seqs.Filter(Seqs.Filter(catalog, PassesFn(q)), NotSponsoredFn())
  {
    var f := Seqs.Filter(catalog, PassesFn(q));
    var cmp := Cmp(q.sortBy);
    var a, b := Seqs.Filter(f, SponsoredFn()), Seqs.Filter(f, NotSponsoredFn());
    var t := a + b;
    CompareConsistent(q.sortBy);
    forall i, j | 0 <= i < j < |t| ensures cmp(t[i], t[j]) <= 0.0 {
      if i < |a| {
        assert t[i] == a[i];
      } else {
        assert t[i] == b[i - |a|] && t[j] == b[j - |a|];
      }
    }
    forall y ensures StableSort.Ties(t, cmp, y) == StableSort.Ties(f, cmp, y) {
      GroupTies(f, a, b, cmp, y, q.sortBy);
    }
    StableSort.SortIsTheStableSort(f, t, cmp);
  }

  /** Under an unknown key two vendors tie exactly when they share their sponsorship. */
  lemma TiedIsSameSponsorship(sortBy: string, y: Vendor)
    requires sortBy !in {"distance", "rating", "name", "products", "reviews"}
    ensures forall v :: StableSort.TiedWith(Cmp(sortBy), y)(v) == SameSponsorshipFn(y)(v)
  {
  }

  /** The group of `y` under an unknown key is its sponsorship group, in either order. */
  lemma GroupTies(f: seq<Vendor>, a: seq<Vendor>, b: seq<Vendor>, cmp: (Vendor, Vendor) -> real, y: Vendor, sortBy: string)
    requires sortBy !in {"distance", "rating", "name", "products", "reviews"}
    requires cmp == Cmp(sortBy)
    requires a == Seqs.Filter(f, SponsoredFn()) && b == Seqs.Filter(f, NotSponsoredFn())
    ensures StableSort.Ties(a + b, cmp, y) == StableSort.Ties(f, cmp, y)
  {
    var same := SameSponsorshipFn(y);
    TiedIsSameSponsorship(sortBy, y);
    StableSort.TiesIsFilter(a + b, cmp, y);
    StableSort.TiesIsFilter(f, cmp, y);
    Seqs.FilterAgree(a + b, StableSort.TiedWith(cmp, y), same);
    Seqs.FilterAgree(f, StableSort.TiedWith(cmp, y), same);
    SponsorshipGroup(f, a, b, y);
  }

  /** Splitting by sponsorship and taking `y`'s group gives `y`'s group of the whole list. */
  lemma SponsorshipGroup(f: seq<Vendor>, a: seq<Vendor>, b: seq<Vendor>, y: Vendor)
    requires a == Seqs.Filter(f, SponsoredFn()) && b == Seqs.Filter(f, NotSponsoredFn())
    ensures Seqs.Filter(a + b, SameSponsorshipFn(y)) == Seqs.Filter(f, SameSponsorshipFn(y))
  {
    var same := SameSponsorshipFn(y);
    Seqs.FilterAppend(a, b, same);
    if y.isSponsored {
      Seqs.FilterKeepsAll(a, same);
      Seqs.FilterDropsAll(b, same);
      Seqs.FilterAgree(f, same, SponsoredFn());
    } else {
      Seqs.FilterDropsAll(a, same);
      Seqs.FilterKeepsAll(b, same);
      Seqs.FilterAgree(f, same, NotSponsoredFn());
    }
  }

  /**
   * `query?.trim() || ''`: the trimmed query, or the empty string when
   * there is no query at all.
   */
  function StoredQuery(query: Option<string>): (r: string)
    ensures r == Trim(r)
    ensures query.None? ==> r == []
    ensures query.Some? && AllWhitespace(query.value) ==> r == []
  {
    match query
    case None => ""
    case Some(text) =>
      TrimIdempotent(text);
      TrimEmptyIffAllWhitespace(text);
      Trim(text)
  }

  /** The vendors page's list and paging state. */
  class VendorsPage {
    const catalog: seq<Vendor>
    var vendors: seq<Vendor>
    var query: Query
    var filteredVendors: seq<Vendor>
    var currentPage: nat
    var hasMore: bool

    ghost predicate Valid()
      reads this
    {
      filteredVendors == Results(catalog, query) &&
      currentPage >= 1 &&
      hasMore == (|filteredVendors| > VendorsPerPage)
    }

    /** The first render: nothing loaded yet, but the effect has filtered the full list once. */
    constructor(allVendors: seq<Vendor>)
      ensures Valid()
      ensures catalog == allVendors && vendors == [] && query == InitialQuery && currentPage == 1
    {
      catalog := allVendors;
      vendors := [];
      query := InitialQuery;
      filteredVendors := [];
      currentPage := 1;
      hasMore := true;
      new;
      FilterAndSortVendors();
    }

    /** `filterAndSortVendors`: always from the full list, then the in-place sort and page 1. */
    method FilterAndSortVendors()
      modifies this
      ensures Valid() && currentPage == 1
      ensures vendors == old(vendors) && query == old(query)
    {
      var filtered := FilterStages(catalog, query);
      filteredVendors := StableSort.SortCopy(filtered, Cmp(query.sortBy));
      currentPage := 1;
      hasMore := |filteredVendors| > VendorsPerPage;
    }

    /** `loadVendors`, once its delay is over: the full list is stored, which re-runs the effect. */
    method LoadVendors()
      requires Valid()
      modifies this
      ensures Valid() && vendors == catalog && query == old(query)
      ensures currentPage == if old(vendors) == catalog then old(currentPage) else 1
    {
      if vendors != catalog {
        vendors := catalog;
        FilterAndSortVendors();
      }
    }

    /** `loadMoreVendors`: one more page. */
    method LoadMoreVendors()
      requires Valid()
      modifies this
      ensures Valid() && currentPage == old(currentPage) + 1
      ensures vendors == old(vendors) && query == old(query) && filteredVendors == old(filteredVendors)
    {
      currentPage := currentPage + 1;
    }

    /** Setting state the effect depends on: the effect runs again, and resets the page, on a change. */
    method SetQuery(q: Query)
      requires Valid()
      modifies this
      ensures Valid() && query == q && vendors == old(vendors)
      ensures currentPage == if q == old(query) then old(currentPage) else 1
    {
      if q != query {
        query := q;
        FilterAndSortVendors();
      }
    }

    /** `handleSearch`. */
    method HandleSearch(text: Option<string>)
      requires Valid()
      modifies this
      ensures Valid() && query == old(query).(searchQuery := StoredQuery(text)) && vendors == old(vendors)
      ensures currentPage == if query == old(query) then old(currentPage) else 1
    {
      SetQuery(query.(searchQuery := StoredQuery(text)));
    }

    /**
     * `handleClearSearch`: the direct call filters with the query of the
     * current render, before the cleared query takes effect, so the page
     * returns to 1 even when the query was already empty.
     */
    method HandleClearSearch()
      requires Valid()
      modifies this
      ensures Valid() && query == old(query).(searchQuery := "") && vendors == old(vendors)
      ensures currentPage == 1
    {
      var cleared := query.(searchQuery := "");
      FilterAndSortVendors();
      SetQuery(cleared);
    }

    /** `handleLocationChange`: the location filters nothing, but a new one re-runs the filter. */
    method HandleLocationChange(loc: Location)
      requires Valid()
      modifies this
      ensures Valid() && query == old(query).(currentLocation := loc) && vendors == old(vendors)
      ensures currentPage == if query == old(query) then old(currentPage) else 1
    {
      SetQuery(query.(currentLocation := loc));
    }

    /** `displayedVendors`. */
    function DisplayedVendors(): seq<Vendor>
      reads this
    {
      Pagination.Displayed(filteredVendors, currentPage, VendorsPerPage)
    }

    /** `hasMoreToShow`. */
    function HasMoreToShow(): bool
      reads this
    {
      Pagination.HasMoreToShow(filteredVendors, currentPage, VendorsPerPage)
    }
  }

  /** The filtering half of `filterAndSortVendors`: search, status, then the radius. */
  method FilterStages(catalog: seq<Vendor>, q: Query) returns (filtered: seq<Vendor>)
    ensures filtered == Seqs.Filter(catalog, PassesFn(q))
  {
    filtered := catalog;
    ghost var before: Vendor -> bool := _ => true;
    Seqs.FilterKeepsAll(catalog, before);

    ghost var s1: Vendor -> bool := v => SearchStage(q, v);
    var searching := Trim(q.searchQuery) != [];
    if searching {
      var needle := Lower(q.searchQuery);
      var matches: Vendor -> bool := v => MatchesSearch(v, needle);
      filtered := Seqs.Filter(filtered, matches);
      Seqs.FilterAgree(catalog, matches, s1);
    }
    Seqs.FilterStage(catalog, before, s1, searching, s1);

    ghost var s2: Vendor -> bool := v => SearchStage(q, v) && StatusStage(q, v);
    if q.statusFilter == "open" {
      var open: Vendor -> bool := (v: Vendor) => v.isOpen;
      filtered := Seqs.Filter(filtered, open);
      Seqs.FilterStage(catalog, s1, open, true, s2);
    } else if q.statusFilter == "popular" {
      var popular: Vendor -> bool := (v: Vendor) => v.rating >= PopularRating;
      filtered := Seqs.Filter(filtered, popular);
      Seqs.FilterStage(catalog, s1, popular, true, s2);
    } else {
      Seqs.FilterAgree(catalog, s1, s2);
    }

    var near: Vendor -> bool := (v: Vendor) => v.distance <= MaxDistance;
    filtered := Seqs.Filter(filtered, near);
    Seqs.FilterStage(catalog, s2, near, true, PassesFn(q));
  }
}
