/**
 * The sticky header of the listing pages: a scroll handler hides it while
 * the user scrolls down past the first 100 pixels and shows it again on
 * any upward scroll or near the top of the page.
 */
module ScrollHeader {

  /** Below this scroll offset the header is always shown. */
  const TopZone: real := 10.0
  /** Scrolling down hides the header only past this offset. */
  const HideAfter: real := 100.0

  /**
   * The visibility after one scroll event that moved the page from `last`
   * to `y`, given the visibility `visible` before it.
   */
  function NextVisible(visible: bool, last: real, y: real): (r: bool)
    ensures y < TopZone ==> r
    ensures y < last ==> r
    ensures TopZone <= y && y > last && y > HideAfter ==> !r
    ensures TopZone <= y && y == last ==> r == visible
    ensures TopZone <= y <= HideAfter && y >= last ==> r == visible
  {
    var afterDirection :=
      if y > last && y > HideAfter then false
      else if y < last then true
      else visible;
    if y < TopZone then true else afterDirection
  }

  /**
   * The header is hidden only after a downward scroll past `HideAfter`,
   * and it stays hidden only while the page has not moved back up.
   */
  ghost predicate Consistent(visible: bool, last: real) {
    !visible ==> last > HideAfter
  }

  /** Every scroll event keeps the header's state consistent. */
  lemma NextVisiblePreserves(visible: bool, last: real, y: real)
    requires Consistent(visible, last)
    ensures Consistent(NextVisible(visible, last, y), y)
  {
  }

  /** The header state machine after a whole series of scroll positions. */
  function Replay(visible: bool, last: real, ys: seq<real>): (r: (bool, real))
    requires Consistent(visible, last)
    ensures Consistent(r.0, r.1)
    ensures ys != [] ==> r.1 == ys[|ys| - 1]
    ensures ys == [] ==> r == (visible, last)
    decreases |ys|
  {
    if ys == [] then (visible, last)
    else
      var v := NextVisible(visible, last, ys[0]);
      NextVisiblePreserves(visible, last, ys[0]);
      Replay(v, ys[0], ys[1..])
  }

  /**
   * Wherever the user scrolls, whenever the page ends within the first
   * `HideAfter` pixels the header is showing.
   */
  lemma ShownNearTop(ys: seq<real>)
    requires ys != [] && ys[|ys| - 1] <= HideAfter
    ensures Replay(true, 0.0, ys).0
  {
  }

  /** The two header fields of a listing page and its scroll handler. */
  class Header {
    var isHeaderVisible: bool
    var lastScrollY: real

    ghost predicate Valid()
      reads this
    {
      Consistent(isHeaderVisible, lastScrollY)
    }

    /** Initial state: shown, at offset 0. */
    constructor()
      ensures Valid()
      ensures isHeaderVisible && lastScrollY == 0.0
    {
      isHeaderVisible := true;
      lastScrollY := 0.0;
    }

    /** `controlHeader`, run for the scroll offset `currentScrollY`. */
    method ControlHeader(currentScrollY: real)
      requires Valid()
      modifies this
      ensures Valid()
      ensures isHeaderVisible == NextVisible(old(isHeaderVisible), old(lastScrollY), currentScrollY)
      ensures lastScrollY == currentScrollY
    {
      if currentScrollY > lastScrollY && currentScrollY > HideAfter {
        isHeaderVisible := false;
      } else if currentScrollY < lastScrollY {
        isHeaderVisible := true;
      }
      if currentScrollY < TopZone {
        isHeaderVisible := true;
      }
      lastScrollY := currentScrollY;
      NextVisiblePreserves(old(isHeaderVisible), old(lastScrollY), currentScrollY);
    }
  }
}
