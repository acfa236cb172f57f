/**
 * The "load more" window shared by the products and vendors listings: the
 * visible list is `filtered.slice(0, currentPage * PAGE_SIZE)` and the
 * "show more" button appears while that window is shorter than the list.
 */
module Pagination {

  /** `filtered.slice(0, page * size)`: the first `page * size` entries, or all of them. */
  function Displayed<T>(filtered: seq<T>, page: nat, size: nat): (r: seq<T>)
    ensures r <= filtered
    ensures |r| == if page * size < |filtered| then page * size else |filtered|
  {
    if page * size < |filtered| then filtered[..page * size] else filtered
  }

  /** `displayed.length < filtered.length`. */
  function HasMoreToShow<T>(filtered: seq<T>, page: nat, size: nat): (r: bool)
    ensures r <==> page * size < |filtered|
    ensures !r <==> Displayed(filtered, page, size) == filtered
  {
    |Displayed(filtered, page, size)| < |filtered|
  }

  /** Loading another page only extends the window: what was shown stays shown, in place. */
  lemma DisplayedGrows<T>(filtered: seq<T>, page: nat, size: nat)
    ensures Displayed(filtered, page, size) <= Displayed(filtered, page + 1, size)
  {
  }

  /** While there is more to show, loading another page shows strictly more entries. */
  lemma LoadMoreShowsMore<T>(filtered: seq<T>, page: nat, size: nat)
    requires size > 0 && HasMoreToShow(filtered, page, size)
    ensures |Displayed(filtered, page + 1, size)| > |Displayed(filtered, page, size)|
  {
  }

  /** The number of pages needed to show `n` entries, `size` at a time (at least one). */
  function PagesNeeded(n: nat, size: nat): (pages: nat)
    requires size > 0
    ensures pages >= 1
    ensures pages * size >= n
    ensures pages == 1 || (pages - 1) * size < n
  {
    if n <= size then 1 else 1 + PagesNeeded(n - size, size)
  }

  /**
   * Exactly `PagesNeeded - 1` loads after page 1 bring the whole list
   * into view, and one fewer still leaves the button showing.
   */
  lemma AllShownAfterPagesNeeded<T>(filtered: seq<T>, size: nat)
    requires size > 0
    ensures Displayed(filtered, PagesNeeded(|filtered|, size), size) == filtered
    ensures PagesNeeded(|filtered|, size) == 1 || HasMoreToShow(filtered, PagesNeeded(|filtered|, size) - 1, size)
  {
  }

  /**
   * Right after a filter run the page is 1, so the stored flag
   * `filtered.length > PAGE_SIZE` agrees with `HasMoreToShow`.
   */
  lemma HasMoreOnFirstPage<T>(filtered: seq<T>, size: nat)
    ensures HasMoreToShow(filtered, 1, size) <==> |filtered| > size
  {
  }
}
