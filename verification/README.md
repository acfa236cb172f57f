# Listing pages of the FreshLink marketplace, in Dafny

This project models the listing logic behind three pages of the FreshLink
marketplace front end:

- the vendors map page (`src/pages/vendors-map/index.jsx`);
- the products page (`src/pages/products/index.jsx`);
- the vendors page (`src/pages/vendors/index.jsx`).

Each page keeps a query in its state: a search text, a category or status,
a sort key and some toggles. An effect re-runs the page's filter-and-sort
function whenever one of its dependencies changes. That function starts
from the page's list, applies every active filter stage in turn, sorts the
survivors in place with `Array.prototype.sort`, and (on the products and
vendors pages) resets the "load more" window to the first page.

## Layout

| file | module | what it holds |
|---|---|---|
| `wrappers.dfy` | `Wrappers` | `Option` |
| `text.dfy` | `Text` | `toLowerCase` (ASCII letters), `includes`, `trim`, and `localeCompare` as code-point order |
| `seqs.dfy` | `Seqs` | `Array.prototype.filter` and its laws |
| `stable_sort.dfy` | `StableSort` | the stable sort: the `Sort` specification function, an in-place insertion sort on an `array` proved equal to it, and a proof that any sorted, stable result equals it |
| `pagination.dfy` | `Pagination` | the `slice(0, page * size)` window and its "show more" flag |
| `header.dfy` | `ScrollHeader` | the `controlHeader` scroll handler (the same on all three pages), as a class and as a state machine |
| `stars.dfy` | `Stars` | the two `renderStars` variants and the star rows they build |
| `vendors_map.dfy` | `VendorsMap` | the vendors map page |
| `products.dfy` | `Products` | the products page, including favourites |
| `vendors.dfy` | `Vendors` | the vendors page, including sponsored-first ordering |

Each page is a class whose fields are the React state it keeps. Its
`Valid()` invariant says the displayed list equals
`Results(catalog, query)`: the stable sort of the catalog filtered by
every active stage. The handlers are methods that keep `Valid()` and say
exactly what they change.

A setter re-runs the effect only when the new value differs from the old
one, as React does. Hence, on the products and vendors pages, the page
number resets to 1 exactly when the query changed. The vendors page's
`handleClearSearch` also calls the filter directly, so it always resets
the page.

Dependencies that are compared by reference in the source (the location
object) are compared by value here.

## Model

| member | source | states |
|---|---|---|
| Text.Lower | src/pages/products/index.jsx:328-330 | the lower-cased string has the same length, each character is the case-folded original, and no upper-case ASCII letter remains |
| Text.Contains | src/pages/products/index.jsx:328-330 | `includes` holds exactly when the needle occurs at some offset of the text |
| Text.Trim | src/pages/products/index.jsx:394-396 | the trimmed text is a contiguous piece of the input, everything cut off is whitespace, and it neither starts nor ends with whitespace |
| Text.TrimEmptyIffAllWhitespace | src/pages/products/index.jsx:326 | `searchQuery.trim()` is empty (falsy) exactly when the query is all whitespace |
| Text.TrimIdempotent | src/pages/vendors/index.jsx:311-314 | trimming an already trimmed query changes nothing |
| Text.StrCompare | src/pages/vendors/index.jsx:289 | `localeCompare` returns -1, 0 or 1, and 0 exactly when the names are equal |
| Text.StrCompareAntisymmetric | src/pages/vendors/index.jsx:289 | swapping the two names negates the comparison |
| Text.StrCompareTransitive | src/pages/vendors/index.jsx:289 | "sorts no later than" is transitive on names |
| Seqs.Filter | src/pages/products/index.jsx:327-331 | the filtered list is no longer than its input and every element kept satisfies the predicate |
| Seqs.FilterMultiplicity | src/pages/products/index.jsx:327-331 | a passing element keeps its number of occurrences; a failing one disappears |
| Seqs.FilterTwice | src/pages/products/index.jsx:334-341 | filtering by one stage and then another equals filtering once by both |
| Seqs.FilterStage | src/pages/products/index.jsx:334-336 | a stage guarded by a condition, applied after earlier stages, gives the list filtered by every stage so far |
| StableSort.InsertPermutes | src/pages/products/index.jsx:364-380 | inserting adds exactly the new element |
| StableSort.SortPermutes | src/pages/products/index.jsx:364-380 | sorting is a permutation of the input |
| StableSort.SortSorted | src/pages/products/index.jsx:364-380 | with a consistent comparator, no element is placed after one the comparator puts strictly before it |
| StableSort.SortStable | src/pages/products/index.jsx:364-380 | elements that compare equal keep their input order |
| StableSort.SortedStableUnique | src/pages/products/index.jsx:364-380 | two sequences that are both sorted and agree on the order inside every group of equal elements are identical |
| StableSort.SortIsTheStableSort | src/pages/products/index.jsx:364-380 | any sorted result that keeps every group in input order is `Sort`, so the model does not depend on the engine's algorithm |
| StableSort.ShiftGreater | src/pages/products/index.jsx:364-380 | the elements before index `i` that compare greater than `x`, scanning from the right, move one place right; the element left of the gap compares no greater than `x`, and nothing else moves |
| StableSort.InsertInPlace | src/pages/products/index.jsx:364-380 | after one insertion step the array's prefix is `Insert` of the old prefix and the rest is untouched |
| StableSort.SortInPlace | src/pages/products/index.jsx:364-380 | the in-place sort leaves the array holding `Sort` of its old contents |
| StableSort.SortCopy | src/pages/vendors/index.jsx:278-297 | sorting a copy of the filtered list yields `Sort` of it |
| Pagination.Displayed | src/pages/products/index.jsx:459 | the visible list is a prefix of the filtered list, of length `min(page * size, length)` |
| Pagination.HasMoreToShow | src/pages/products/index.jsx:460 | "show more" holds exactly when `page * size` is below the list length, and is false exactly when everything is visible |
| Pagination.DisplayedGrows | src/pages/products/index.jsx:387-392 | loading another page keeps every visible product in place |
| Pagination.LoadMoreShowsMore | src/pages/vendors/index.jsx:304-309 | while there is more to show, loading another page shows strictly more |
| Pagination.PagesNeeded | src/pages/vendors/index.jsx:331-332 | the least number of pages (at least one) whose window covers `n` entries |
| Pagination.AllShownAfterPagesNeeded | src/pages/vendors/index.jsx:331-332 | at `PagesNeeded` pages the whole list is visible, and one page fewer still shows the button |
| Pagination.HasMoreOnFirstPage | src/pages/products/index.jsx:384 | on page 1 the stored `hasMore` flag (`length > PAGE_SIZE`) agrees with the rendered `hasMoreToShow` |
| ScrollHeader.NextVisible | src/pages/vendors-map/index.jsx:190-204 | the header shows near the top and on any upward scroll, hides on a downward scroll past 100, and otherwise keeps its state |
| ScrollHeader.NextVisiblePreserves | src/pages/vendors-map/index.jsx:193-201 | a hidden header always has a last offset above 100, after every scroll event |
| ScrollHeader.Replay | src/pages/vendors-map/index.jsx:190-204 | after a series of scroll events the state is consistent and remembers the last offset |
| ScrollHeader.ShownNearTop | src/pages/vendors-map/index.jsx:190-204 | whatever the scroll history, the header is showing whenever the page ends within the first 100 pixels |
| ScrollHeader.Header.constructor | src/pages/vendors-map/index.jsx:67-68 | the header starts shown at offset 0 |
| ScrollHeader.Header.ControlHeader | src/pages/vendors-map/index.jsx:190-204 | the scroll handler sets visibility to `NextVisible` and records the offset (the products page, lines 260-274, and the vendors page, lines 206-220, have the same handler) |
| Stars.FirstSlots | src/pages/vendors/index.jsx:393 | `slice(0, 5)` keeps a prefix of at most five stars, and a row of five or fewer unchanged |
| Stars.RenderStars | src/pages/vendors-map/index.jsx:341-365 | the loops build `floor(r)` full stars, a half star when fractional and there is room, then empty stars up to five (the products page's `renderStars`, lines 469-493, is the same) |
| Stars.RenderStarsCeil | src/pages/vendors/index.jsx:334-359 | the loops build `floor(r)` full stars, a half star when fractional, then `5 - ceil(r)` empty stars |
| Stars.CeilFloor | src/pages/vendors/index.jsx:351 | `Math.ceil(r)` is `floor(r) + 1` for a fractional rating and `floor(r)` otherwise |
| Stars.FillLayoutAt | src/pages/vendors-map/index.jsx:341-365 | slot `i` of the padded row is full below `floor(r)`, the half star at `floor(r)` when fractional and below five, empty otherwise |
| Stars.CeilLayoutAt | src/pages/vendors/index.jsx:334-359 | slot `i` of the vendors page's row is full below `floor(r)`, the half star at `floor(r)` when fractional, empty otherwise |
| Stars.FillLayoutShape | src/pages/products/index.jsx:469-493 | for a rating in [0, 5] the row has exactly five slots, each as `SlotAt` says, full before half before empty |
| Stars.FillLayoutOrdered | src/pages/vendors-map/index.jsx:341-365 | for any rating, full stars come before the half star, which comes before the empty ones |
| Stars.CeilLayoutShape | src/pages/vendors/index.jsx:334-359 | for a rating in [0, 5] the vendors page's row also has exactly five slots, each as `SlotAt` says |
| Stars.CeilLayoutOrdered | src/pages/vendors/index.jsx:334-359 | for any rating, the vendors page's row is ordered full, half, empty |
| Stars.CardRowMatchesFillLayout | src/pages/vendors/index.jsx:393 | the five stars a vendor card shows equal the first five of the padded row for every rating, and the rows are equal in [0, 5] |
| VendorsMap.CompareConsistent | src/pages/vendors-map/index.jsx:282-297 | every sort key gives an antisymmetric, transitive comparator |
| VendorsMap.ResultsArePassingVendors | src/pages/vendors-map/index.jsx:259-279 | the list holds exactly the vendors that pass every active stage, each as often as in the loaded list |
| VendorsMap.SearchStageMeaning | src/pages/vendors-map/index.jsx:263-269 | a blank query keeps everything; any other keeps a vendor exactly when the lower-cased query (untrimmed) occurs in its name, location or a category |
| VendorsMap.CategoryIsExact | src/pages/vendors-map/index.jsx:272-274 | a category other than "all" lists only vendors of exactly that category |
| VendorsMap.OnlyOpenListsOpen | src/pages/vendors-map/index.jsx:277-279 | with "open now" on, every listed vendor is open |
| VendorsMap.ResultsOrdered | src/pages/vendors-map/index.jsx:282-297 | rating, products and reviews descending, name in string order, distance ascending (also the default) |
| VendorsMap.ResultsStable | src/pages/vendors-map/index.jsx:282-297 | vendors tied on the key keep their loaded order |
| VendorsMap.FilterStages | src/pages/vendors-map/index.jsx:259-279 | applying search, category and open stages one by one gives the list filtered by `Passes` |
| VendorsMap.VendorsMapPage.constructor | src/pages/vendors-map/index.jsx:236-257 | after mounting, the mock vendors are loaded and filtered; the map centres on the reported position, or on São Paulo when there is none |
| VendorsMap.VendorsMapPage.FilterAndSortVendors | src/pages/vendors-map/index.jsx:259-300 | the list becomes `Results` of the current vendors and query; nothing else changes |
| VendorsMap.VendorsMapPage.SetQuery | src/pages/vendors-map/index.jsx:255-257 | after any change to the effect's dependencies the list is again `Results`; with no change the list stays; the locations, selection and map are unchanged |
| VendorsMap.VendorsMapPage.HandleSearch | src/pages/vendors-map/index.jsx:307-309 | the query is stored as typed and the list follows it; the locations, selection and map are unchanged |
| VendorsMap.VendorsMapPage.HandleClearSearch | src/pages/vendors-map/index.jsx:311-313 | the query becomes empty and the list follows it; the locations, selection and map are unchanged |
| VendorsMap.VendorsMapPage.HandleLocationChange | src/pages/vendors-map/index.jsx:315-317 | the location changes, and the list, query and map do not |
| VendorsMap.VendorsMapPage.HandleVendorClick | src/pages/vendors-map/index.jsx:302-305 | the vendor is selected and the map centres on its coordinates; the list is unchanged |
| Products.FindRange | src/pages/products/index.jsx:345 | `find` returns the first bucket with that value, or nothing when no bucket has it |
| Products.CompareConsistent | src/pages/products/index.jsx:364-380 | every sort key gives an antisymmetric, transitive comparator |
| Products.ResultsArePassingProducts | src/pages/products/index.jsx:323-362 | the grid holds exactly the catalog products that pass every active stage, each as often as in the catalog |
| Products.SearchStageMeaning | src/pages/products/index.jsx:326-332 | a blank query keeps everything; any other keeps a product exactly when the query occurs in its name, vendor or a category |
| Products.BucketBounds | src/pages/products/index.jsx:344-352 | each bucket keeps prices in its range with both bounds inclusive; "all" and an unknown value keep everything |
| Products.CustomBounds | src/pages/products/index.jsx:355-362 | with both bounds empty nothing is filtered; otherwise the price must lie between them, inclusive, an empty minimum meaning 0 and an empty maximum no limit |
| Products.ClearPriceKeepsEveryPrice | src/pages/products/index.jsx:453-457 | after clearing the price filter, only the search, category and organic stages decide |
| Products.OnlyOrganicListsOrganic | src/pages/products/index.jsx:339-341 | with "organic only" on, every listed product is organic |
| Products.LocationDoesNotFilter | src/pages/products/index.jsx:312-314 | the location, though a dependency of the effect, does not change the list |
| Products.ResultsOrdered | src/pages/products/index.jsx:364-380 | price ascending or descending, distance ascending, newest id first, rating descending for "rating", "relevance" and unknown keys |
| Products.ResultsStable | src/pages/products/index.jsx:364-380 | products tied on the key keep their catalog order |
| Products.Toggled | src/pages/products/index.jsx:431-433 | the toggled id becomes a favourite exactly when it was not one; every other id keeps its status |
| Products.ToggledCounts | src/pages/products/index.jsx:431-433 | only the count of the toggled id changes, to zero or up by one, and the other favourites keep their order |
| Products.ToggleTwiceRestores | src/pages/products/index.jsx:429-437 | toggling a new id twice gives back the same list |
| Products.ToggleTwiceSameMembers | src/pages/products/index.jsx:429-437 | toggling any id twice restores which ids are favourites |
| Products.ToggledNoDuplicates | src/pages/products/index.jsx:429-437 | a favourites list without repeats stays without repeats |
| Products.ProductsPage.constructor | src/pages/products/index.jsx:306-314 | after mounting, the saved favourites are restored, the catalog is filtered with the initial query, and the page is 1 |
| Products.ProductsPage.FilterProducts | src/pages/products/index.jsx:323-385 | the grid becomes `Results`, the page returns to 1 and `hasMore` is recomputed |
| Products.ProductsPage.LoadMoreProducts | src/pages/products/index.jsx:387-392 | the page advances by one and nothing else changes |
| Products.ProductsPage.SetQuery | src/pages/products/index.jsx:312-314 | after a change to the effect's dependencies the grid is `Results` and the page resets to 1; with no change, nothing happens |
| Products.ProductsPage.HandleSearch | src/pages/products/index.jsx:394-396 | the query is stored trimmed; the page resets to 1 exactly when the query changed |
| Products.ProductsPage.HandleClearSearch | src/pages/products/index.jsx:398-400 | the query becomes empty; the page resets to 1 exactly when it was not empty |
| Products.ProductsPage.HandleLocationChange | src/pages/products/index.jsx:402-404 | the location is stored and the grid re-filtered; the page resets to 1 exactly when the location changed |
| Products.ProductsPage.HandlePriceFilterClear | src/pages/products/index.jsx:453-457 | the bucket returns to "all" and both custom bounds are emptied, in one update; the page resets to 1 exactly when the query changed |
| Products.ProductsPage.HandleFavoriteToggle | src/pages/products/index.jsx:429-437 | the favourites become `Toggled`; the grid and page are unchanged |
| Products.FilterStages | src/pages/products/index.jsx:323-362 | applying the five stages one by one gives the catalog filtered by `Passes` |
| Products.TextStages | src/pages/products/index.jsx:326-341 | the search, category and organic stages give the catalog filtered by all three |
| Products.PriceStages | src/pages/products/index.jsx:343-362 | the bucket and custom stages, applied after the others, give the catalog filtered by every stage |
| Vendors.CompareConsistent | src/pages/vendors/index.jsx:278-297 | the sponsored-first comparator is antisymmetric and transitive for every key |
| Vendors.ResultsArePassingVendors | src/pages/vendors/index.jsx:255-275 | the grid holds exactly the vendors that pass every stage, each as often as in the full list |
| Vendors.WithinRadius | src/pages/vendors/index.jsx:275 | no listed vendor is farther than 5 km, whatever the query |
| Vendors.StatusMeaning | src/pages/vendors/index.jsx:268-272 | "open" lists only open vendors, "popular" only those rated 4.5 or more, any other value filters nothing |
| Vendors.SearchStageMeaning | src/pages/vendors/index.jsx:259-265 | a blank query keeps everything; any other keeps a vendor exactly when the query occurs in its name, location or a category |
| Vendors.ResultsSorted | src/pages/vendors/index.jsx:278-297 | the grid is ordered by the sponsored-first comparator |
| Vendors.ResultsStable | src/pages/vendors/index.jsx:278-297 | vendors tied under the comparator keep their full-list order |
| Vendors.SponsoredFirst | src/pages/vendors/index.jsx:279-281 | for every key, every sponsored vendor comes before every vendor that is not |
| Vendors.GroupOrderedByKey | src/pages/vendors/index.jsx:283-293 | within each sponsorship group: distance ascending; rating, products and reviews descending; names in string order |
| Vendors.UnknownKeyKeepsListOrder | src/pages/vendors/index.jsx:294-295 | for an unknown key the grid is the sponsored vendors, then the rest, each in full-list order |
| Vendors.StoredQuery | src/pages/vendors/index.jsx:312 | `query?.trim() \|\| ''` is already trimmed, and is empty for a missing or blank query |
| Vendors.VendorsPage.constructor | src/pages/vendors/index.jsx:238-245 | on the first render nothing is loaded yet, but the effect has filtered the full list, on page 1 |
| Vendors.VendorsPage.FilterAndSortVendors | src/pages/vendors/index.jsx:255-302 | the grid becomes `Results` of the full list, the page returns to 1 and `hasMore` is recomputed |
| Vendors.VendorsPage.LoadVendors | src/pages/vendors/index.jsx:247-253 | storing the full list re-runs the effect when it changed the vendors state |
| Vendors.VendorsPage.LoadMoreVendors | src/pages/vendors/index.jsx:304-309 | the page advances by one and nothing else changes |
| Vendors.VendorsPage.SetQuery | src/pages/vendors/index.jsx:243-245 | after a change to the effect's dependencies the grid is `Results` and the page resets to 1; with no change, nothing happens |
| Vendors.VendorsPage.HandleSearch | src/pages/vendors/index.jsx:311-314 | the query is stored as `StoredQuery` of the input; the page resets to 1 exactly when the query changed |
| Vendors.VendorsPage.HandleClearSearch | src/pages/vendors/index.jsx:316-319 | the query becomes empty and the page is 1 even when the query already was empty |
| Vendors.VendorsPage.HandleLocationChange | src/pages/vendors/index.jsx:321-323 | the location is stored and the grid re-filtered; the page resets to 1 exactly when the location changed |
| Vendors.FilterStages | src/pages/vendors/index.jsx:255-275 | applying search, status and radius one by one gives the full list filtered by `Passes` |

## Left out

- Rendering: JSX, icons, the category-strip arrows (`checkCategoryOverflow`, `scrollCategories`), the product modal, navigation to detail pages and the WhatsApp links.
- Map widget: the Leaflet map, its markers and their colours.
- Geolocation: the browser call is a constructor parameter (`position`); a failed request is `None`.
- Timing: the `setTimeout` delays of `loadProducts`, `loadVendors` and the "load more" handlers, and the `loading`/`loadingMore` flags. Each handler is modelled as its state change once the delay has passed.
- Throttling: the `requestAnimationFrame` throttle in front of `controlHeader`. The model applies the handler to each scroll offset it is given.
- Storage: the favourites `localStorage` read at mount is the constructor's `savedFavorites`. The write on every toggle is not modelled.
- Formatting: `Intl.NumberFormat` prices and `toFixed` ratings.
- `loadProducts` stores the mock catalog in a `products` state that nothing reads. The products page always filters the constant catalog.
- The vendors page's `allVendors` array and the products page's `mockProducts` array are the `catalog` parameter; their literal contents are not reproduced.
- Text.Lower: folds only ASCII `A`-`Z`. JavaScript's `toLowerCase` also folds accented and other non-ASCII letters.
- Text.StrCompare: compares code points lexicographically. `localeCompare` uses the locale's collation.
- Strings are sequences of code points. A character outside the Basic Multilingual Plane (an emoji, say) is one element here and two UTF-16 code units in the source. Only ordering against text in the surrogate range can differ; `includes` and `trim` give the same answers.
- Numbers are unbounded `real`/`int`. Floating-point rounding in comparator differences is not modelled.
- Products.CustomRange: a custom bound is `None` or a number. The bound comes from an `<input type="number">`, whose value is either empty or a valid number, so `parseFloat` never yields `NaN` there.
- Effect dependencies are compared by value. React compares the location object by reference, so re-selecting an equal location object re-runs the filter in the source but not in the model. The list is the same either way (see `Products.LocationDoesNotFilter`). On the vendors page the page number is reset only in the source.
- Products.CustomRange: the source keeps the custom bounds as strings, so retyping "10" as "10.0" changes a dependency, re-runs `filterProducts` and resets the page to 1. The model compares the parsed `Option<real>` values, so that edit keeps the page.
- Unreachable handlers on the products page: nothing calls `setShowOnlyOrganic`, and `handleLocationChange` is never passed to a component. `Products.OnlyOrganicListsOrganic` and `Products.ProductsPage.HandleLocationChange` describe states the rendered page cannot reach.

## Notes on the code's behaviour

- Price buckets keep `min <= price <= max`: both bounds are inclusive (`Products.BucketBounds`).
- Custom bounds: an unparsable bound would make `parseFloat` return `NaN` and drop every product. The number input cannot hold such a value, so the model keeps only empty or numeric bounds.
- Hiding the header: the header hides on any downward scroll that ends past offset 100, whatever the distance scrolled (`ScrollHeader.NextVisible`).
- Star rows: there are two layouts. The vendors map and products pages pad to five slots. The vendors page adds `5 - ceil(rating)` empty stars and cuts the row to five. The two rows agree on every rating in [0, 5] and on the five stars a card shows (`Stars.CardRowMatchesFillLayout`).
