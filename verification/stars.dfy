/**
 * The star-rating row of the listing cards. The vendors-map and products
 * pages pad the row to five slots; the vendors page computes the number
 * of empty slots as `5 - ceil(rating)` and its card keeps only the first
 * five slots.
 */
module Stars {

  datatype Star = Full | Half | Empty

  /** The number of slots a rating row is meant to have. */
  const Slots: int := 5

  /** `Math.ceil`. */
  function Ceil(r: real): int {
    -((-r).Floor)
  }

  /** `r % 1 !== 0`: the rating is not a whole number. */
  predicate HasFraction(r: real) {
    r.Floor as real != r
  }

  /** `n` copies of `s`; none when `n` is not positive (a loop that does not run). */
  function Repeat(s: Star, n: int): (r: seq<Star>)
    ensures |r| == if n > 0 then n else 0
  {
    if n <= 0 then [] else Repeat(s, n - 1) + [s]
  }

  /** Every slot of `Repeat(s, n)` holds `s`. */
  lemma {:induction false} RepeatAt(s: Star, n: int, i: int)
    requires 0 <= i < |Repeat(s, n)|
    ensures Repeat(s, n)[i] == s
  {
    if i < n - 1 {
      RepeatAt(s, n - 1, i);
    }
  }

  /** Full stars come first, then the half star, then the empty ones. */
  function Rank(s: Star): int {
    match s
    case Full => 0
    case Half => 1
    case Empty => 2
  }

  predicate Ordered(s: seq<Star>) {
    forall i, j :: 0 <= i < j < |s| ==> Rank(s[i]) <= Rank(s[j])
  }

  /**
   * The row built by the vendors-map and products pages: `floor(r)` full
   * stars, a half star if `r` is fractional and there is room, then empty
   * stars until there are five.
   */
  function FillLayout(r: real): seq<Star> {
    var full := Repeat(Full, r.Floor);
    var withHalf := full + (if HasFraction(r) && |full| < Slots then [Half] else []);
    withHalf + Repeat(Empty, Slots - |withHalf|)
  }

  /**
   * The row built by the vendors page: `floor(r)` full stars, a half star
   * if `r` is fractional, then `5 - ceil(r)` empty stars.
   */
  function CeilLayout(r: real): seq<Star> {
    Repeat(Full, r.Floor) + (if HasFraction(r) then [Half] else []) + Repeat(Empty, Slots - Ceil(r))
  }

  /** `stars.slice(0, 5)`, as the vendor card applies it. */
  function FirstSlots(s: seq<Star>): (r: seq<Star>)
    ensures r <= s && |r| <= Slots
    ensures |s| <= Slots ==> r == s
  {
    if |s| <= Slots then s else s[..Slots]
  }

  /** `renderStars` of the vendors-map and products pages. */
  method RenderStars(rating: real) returns (stars: seq<Star>)
    ensures stars == FillLayout(rating)
  {
    var fullStars := rating.Floor;
    var hasHalfStar := HasFraction(rating);
    stars := [];
    var i := 0;
    while i < fullStars
      invariant 0 <= i && (i <= fullStars || i == 0)
      invariant stars == Repeat(Full, i)
    {
      assert Repeat(Full, i + 1) == Repeat(Full, i) + [Full];
      stars := stars + [Full];
      i := i + 1;
    }
    ghost var full := Repeat(Full, fullStars);
    assert stars == full;
    if hasHalfStar && |stars| < Slots {
      stars := stars + [Half];
    }
    ghost var withHalf := stars;
    assert withHalf == full + (if HasFraction(rating) && |full| < Slots then [Half] else []);
    ghost var e := 0;
    while |stars| < Slots
      invariant |stars| == |withHalf| + e
      invariant 0 <= e && (|stars| <= Slots || e == 0)
      invariant stars == withHalf + Repeat(Empty, e)
      decreases Slots - |stars|
    {
      assert Repeat(Empty, e + 1) == Repeat(Empty, e) + [Empty];
      stars := stars + [Empty];
      e := e + 1;
    }
    assert e == Slots - |withHalf| || (e == 0 && Slots - |withHalf| <= 0);
    assert Repeat(Empty, e) == Repeat(Empty, Slots - |withHalf|);
  }

  /** `renderStars` of the vendors page. */
  method RenderStarsCeil(rating: real) returns (stars: seq<Star>)
    ensures stars == CeilLayout(rating)
  {
    var fullStars := rating.Floor;
    var hasHalfStar := HasFraction(rating);
    stars := [];
    var i := 0;
    while i < fullStars
      invariant 0 <= i && (i <= fullStars || i == 0)
      invariant stars == Repeat(Full, i)
    {
      assert Repeat(Full, i + 1) == Repeat(Full, i) + [Full];
      stars := stars + [Full];
      i := i + 1;
    }
    ghost var full := Repeat(Full, fullStars);
    assert stars == full;
    if hasHalfStar {
      stars := stars + [Half];
    }
    ghost var withHalf := stars;
    assert withHalf == full + (if HasFraction(rating) then [Half] else []);
    var emptyStars := Slots - Ceil(rating);
    var e := 0;
    while e < emptyStars
      invariant 0 <= e && (e <= emptyStars || e == 0)
      invariant stars == withHalf + Repeat(Empty, e)
    {
      assert Repeat(Empty, e + 1) == Repeat(Empty, e) + [Empty];
      stars := stars + [Empty];
      e := e + 1;
    }
    assert Repeat(Empty, e) == Repeat(Empty, emptyStars);
  }

  /** `ceil(r)` is `floor(r)` plus one exactly when `r` is fractional. */
  lemma CeilFloor(r: real)
    ensures Ceil(r) == if HasFraction(r) then r.Floor + 1 else r.Floor
  {
    if HasFraction(r) {
      assert r.Floor as real < r;
      assert (-r).Floor == -r.Floor - 1;
    } else {
      assert (-r).Floor == -r.Floor;
    }
  }

  /** The slot of `FillLayout(r)` at index `i`. */
  lemma FillLayoutAt(r: real, i: int)
    requires 0 <= i < |FillLayout(r)|
    ensures FillLayout(r)[i] ==
      if i < r.Floor then Full
      else if i == (if r.Floor > 0 then r.Floor else 0) && HasFraction(r) && i < Slots then Half
      else Empty
  {
    var full := Repeat(Full, r.Floor);
    var withHalf := full + (if HasFraction(r) && |full| < Slots then [Half] else []);
    if i < |full| {
      RepeatAt(Full, r.Floor, i);
    } else if i >= |withHalf| {
      RepeatAt(Empty, Slots - |withHalf|, i - |withHalf|);
    }
  }

  /** The slot of `CeilLayout(r)` at index `i`. */
  lemma CeilLayoutAt(r: real, i: int)
    requires 0 <= i < |CeilLayout(r)|
    ensures CeilLayout(r)[i] ==
      if i < r.Floor then Full
      else if i == (if r.Floor > 0 then r.Floor else 0) && HasFraction(r) then Half
      else Empty
  {
    var full := Repeat(Full, r.Floor);
    var withHalf := full + (if HasFraction(r) then [Half] else []);
    if i < |full| {
      RepeatAt(Full, r.Floor, i);
    } else if i >= |withHalf| {
      RepeatAt(Empty, Slots - Ceil(r), i - |withHalf|);
    }
  }

  /**
   * The star a well-formed row holds at slot `i`: full below `floor(r)`,
   * the half star at `floor(r)` when `r` is fractional, empty after.
   */
  function SlotAt(r: real, i: int): Star {
    if i < r.Floor then Full
    else if i == r.Floor && HasFraction(r) then Half
    else Empty
  }

  /**
   * For a rating between 0 and 5 the padded row has exactly five slots:
   * `floor(r)` full stars, a half star exactly when `r` is fractional, the
   * rest empty, in that order.
   */
  lemma FillLayoutShape(r: real)
    requires 0.0 <= r <= 5.0
    ensures |FillLayout(r)| == Slots
    ensures forall i :: 0 <= i < Slots ==> FillLayout(r)[i] == SlotAt(r, i)
    ensures Ordered(FillLayout(r))
  {
    FloorInRange(r);
    forall i | 0 <= i < Slots
      ensures FillLayout(r)[i] == SlotAt(r, i)
    {
      FillLayoutAt(r, i);
    }
    FillLayoutOrdered(r);
  }

  /** A rating between 0 and 5 has between 0 and 5 whole stars, and 5 is whole. */
  lemma FloorInRange(r: real)
    requires 0.0 <= r <= 5.0
    ensures 0 <= r.Floor <= Slots
    ensures r.Floor == Slots ==> !HasFraction(r)
  {
  }

  /** Whatever the rating, the padded row lists full, then half, then empty stars. */
  lemma FillLayoutOrdered(r: real)
    ensures Ordered(FillLayout(r))
  {
    forall i, j | 0 <= i < j < |FillLayout(r)|
      ensures Rank(FillLayout(r)[i]) <= Rank(FillLayout(r)[j])
    {
      FillLayoutAt(r, i);
      FillLayoutAt(r, j);
    }
  }

  /**
   * For a rating between 0 and 5 the vendors page's row also has exactly
   * five slots, with the same stars in the same places.
   */
  lemma CeilLayoutShape(r: real)
    requires 0.0 <= r <= 5.0
    ensures |CeilLayout(r)| == Slots
    ensures forall i :: 0 <= i < Slots ==> CeilLayout(r)[i] == SlotAt(r, i)
    ensures Ordered(CeilLayout(r))
  {
    CeilFloor(r);
    FloorInRange(r);
    forall i | 0 <= i < Slots
      ensures CeilLayout(r)[i] == SlotAt(r, i)
    {
      CeilLayoutAt(r, i);
    }
    CeilLayoutOrdered(r);
  }

  /** Whatever the rating, the vendors page's row lists full, then half, then empty stars. */
  lemma CeilLayoutOrdered(r: real)
    ensures Ordered(CeilLayout(r))
  {
    forall i, j | 0 <= i < j < |CeilLayout(r)|
      ensures Rank(CeilLayout(r)[i]) <= Rank(CeilLayout(r)[j])
    {
      CeilLayoutAt(r, i);
      CeilLayoutAt(r, j);
    }
  }

  /**
   * The five slots a vendor card shows are, for every rating, the first
   * five slots of the padded row; between 0 and 5 the two rows are equal.
   */
  lemma {:induction false} CardRowMatchesFillLayout(r: real)
    ensures FirstSlots(CeilLayout(r)) == FirstSlots(FillLayout(r))
    ensures 0.0 <= r <= 5.0 ==> CeilLayout(r) == FillLayout(r)
  {
    CeilFloor(r);
    var c, f := CeilLayout(r), FillLayout(r);
    assert |c| >= Slots || |c| == |f|;
    assert |f| >= Slots;
    forall i | 0 <= i < Slots && i < |c|
      ensures c[i] == f[i]
    {
      CeilLayoutAt(r, i);
      FillLayoutAt(r, i);
    }
  }
}
