/**
 * `Array.prototype.sort(compare)` as the pages use it: an in-place, stable
 * sort driven by a comparator that returns a number whose sign orders two
 * elements. Since ES2019 the engine's sort is required to be stable, so
 * for a consistent comparator the result is fully determined (see
 * SortedStableUnique); the model computes it by insertion sort.
 */
module StableSort {
  import Seqs

  /**
   * The comparator behaves like a total preorder: swapping the arguments
   * swaps the sign, and "sorts no later than" is transitive.
   */
  ghost predicate Consistent<T(!new)>(cmp: (T, T) -> real) {
    && (forall a, b :: cmp(a, b) < 0.0 <==> cmp(b, a) > 0.0)
    && (forall a, b, c :: cmp(a, b) <= 0.0 && cmp(b, c) <= 0.0 ==> cmp(a, c) <= 0.0)
  }

  /** No element is placed after one that the comparator puts strictly before it. */
  ghost predicate Sorted<T>(s: seq<T>, cmp: (T, T) -> real) {
    forall i, j :: 0 <= i < j < |s| ==> cmp(s[i], s[j]) <= 0.0
  }

  /**
   * Inserts `x` after the last element that does not compare greater than
   * it, which is what shifting from the right does.
   */
  function Insert<T>(s: seq<T>, x: T, cmp: (T, T) -> real): (r: seq<T>)
    ensures |r| == |s| + 1
  {
    if s == [] || cmp(s[|s| - 1], x) <= 0.0 then s + [x]
    else
      Insert(s[..|s| - 1], x, cmp) + [s[|s| - 1]]
  }

  /** The result of the stable sort: insert each element, left to right. */
  function Sort<T>(s: seq<T>, cmp: (T, T) -> real): (r: seq<T>)
    ensures |r| == |s|
  {
    if s == [] then []
    else Insert(Sort(s[..|s| - 1], cmp), s[|s| - 1], cmp)
  }

  /** Inserting adds exactly `x`. */
  lemma {:induction false} InsertPermutes<T>(s: seq<T>, x: T, cmp: (T, T) -> real)
    ensures multiset(Insert(s, x, cmp)) == multiset(s) + multiset{x}
  {
    if s != [] && cmp(s[|s| - 1], x) > 0.0 {
      InsertPermutes(s[..|s| - 1], x, cmp);
      assert s == s[..|s| - 1] + [s[|s| - 1]];
    }
  }

  /** The sort is a permutation of its input. */
  lemma {:induction false} SortPermutes<T>(s: seq<T>, cmp: (T, T) -> real)
    ensures multiset(Sort(s, cmp)) == multiset(s)
  {
    if s != [] {
      SortPermutes(s[..|s| - 1], cmp);
      InsertPermutes(Sort(s[..|s| - 1], cmp), s[|s| - 1], cmp);
      assert s == s[..|s| - 1] + [s[|s| - 1]];
    }
  }

  /** The elements of `s` that compare equal to `x`, in their order in `s`. */
  function Ties<T>(s: seq<T>, cmp: (T, T) -> real, x: T): seq<T> {
    if s == [] then []
    else Ties(s[..|s| - 1], cmp, x) + (if cmp(x, s[|s| - 1]) == 0.0 then [s[|s| - 1]] else [])
  }

  /** Compares equal to `y`. */
  function TiedWith<T>(cmp: (T, T) -> real, y: T): T -> bool {
    x => cmp(y, x) == 0.0
  }

  /** The group of `y` is the filter of the elements tied with it. */
  lemma {:induction false} TiesIsFilter<T(!new)>(s: seq<T>, cmp: (T, T) -> real, y: T)
    ensures Ties(s, cmp, y) == Seqs.Filter(s, TiedWith(cmp, y))
  {
    if s != [] {
      var init, last := s[..|s| - 1], s[|s| - 1];
      TiesIsFilter(init, cmp, y);
      Seqs.FilterSnoc(init, last, TiedWith(cmp, y));
      assert s == init + [last];
    }
  }

  lemma {:induction false} TiesAppend<T>(a: seq<T>, b: seq<T>, cmp: (T, T) -> real, x: T)
    ensures Ties(a + b, cmp, x) == Ties(a, cmp, x) + Ties(b, cmp, x)
  {
    if b == [] {
      assert a + b == a;
    } else {
      assert (a + b)[..|a + b| - 1] == a + b[..|b| - 1];
      TiesAppend(a, b[..|b| - 1], cmp, x);
    }
  }

  lemma {:induction false} TiesMembers<T>(s: seq<T>, cmp: (T, T) -> real, x: T, y: T)
    requires y in Ties(s, cmp, x)
    ensures y in s && cmp(x, y) == 0.0
  {
    if s != [] {
      if y in Ties(s[..|s| - 1], cmp, x) {
        TiesMembers(s[..|s| - 1], cmp, x, y);
      }
    }
  }

  /** Every element of `Insert(s, x, cmp)` is `x` or an element of `s`. */
  lemma InsertElement<T>(s: seq<T>, x: T, cmp: (T, T) -> real, k: nat)
    requires k < |s| + 1
    ensures Insert(s, x, cmp)[k] == x || Insert(s, x, cmp)[k] in s
  {
    var r := Insert(s, x, cmp);
    assert r[k] in multiset(r);
  }

  lemma SortedSnoc<T(!new)>(r: seq<T>, last: T, cmp: (T, T) -> real)
    requires Sorted(r, cmp)
    requires forall k :: 0 <= k < |r| ==> cmp(r[k], last) <= 0.0
    ensures Sorted(r + [last], cmp)
  {
  }

  lemma {:induction false} InsertSorted<T(!new)>(s: seq<T>, x: T, cmp: (T, T) -> real)
    requires Consistent(cmp) && Sorted(s, cmp)
    ensures Sorted(Insert(s, x, cmp), cmp)
  {
    if s != [] && cmp(s[|s| - 1], x) > 0.0 {
      var init := s[..|s| - 1];
      var last := s[|s| - 1];
      assert Sorted(init, cmp);
      InsertSorted(init, x, cmp);
      var r := Insert(init, x, cmp);
      forall k | 0 <= k < |r| ensures cmp(r[k], last) <= 0.0 {
        InsertElement(init, x, cmp, k);
        if r[k] != x {
          var m :| 0 <= m < |init| && init[m] == r[k];
          assert cmp(s[m], s[|s| - 1]) <= 0.0;
        }
      }
      SortedSnoc(r, last, cmp);
    }
  }

  /** The sort's output is ordered by the comparator. */
  lemma {:induction false} SortSorted<T(!new)>(s: seq<T>, cmp: (T, T) -> real)
    requires Consistent(cmp)
    ensures Sorted(Sort(s, cmp), cmp)
  {
    if s != [] {
      SortSorted(s[..|s| - 1], cmp);
      InsertSorted(Sort(s[..|s| - 1], cmp), s[|s| - 1], cmp);
    }
  }

  lemma {:induction false} InsertTies<T(!new)>(s: seq<T>, x: T, cmp: (T, T) -> real, y: T)
    requires Consistent(cmp)
    ensures Ties(Insert(s, x, cmp), cmp, y) == Ties(s, cmp, y) + (if cmp(y, x) == 0.0 then [x] else [])
  {
    if s == [] || cmp(s[|s| - 1], x) <= 0.0 {
      assert (s + [x])[..|s + [x]| - 1] == s;
    } else {
      var init := s[..|s| - 1];
      var last := s[|s| - 1];
      InsertTies(init, x, cmp, y);
      var r := Insert(init, x, cmp);
      assert (r + [last])[..|r + [last]| - 1] == r;
      if cmp(y, x) == 0.0 {
        // `last` sorts strictly after `x`, so it cannot tie with `y`
        assert cmp(y, last) != 0.0;
      }
    }
  }

  /**
   * Stability: the elements that compare equal to any `y` appear in the
   * output in the same relative order as in the input.
   */
  lemma {:induction false} SortStable<T(!new)>(s: seq<T>, cmp: (T, T) -> real, y: T)
    requires Consistent(cmp)
    ensures Ties(Sort(s, cmp), cmp, y) == Ties(s, cmp, y)
  {
    if s != [] {
      SortStable(s[..|s| - 1], cmp, y);
      InsertTies(Sort(s[..|s| - 1], cmp), s[|s| - 1], cmp, y);
    }
  }

  lemma TiesSnoc<T>(s: seq<T>, e: T, cmp: (T, T) -> real, y: T)
    ensures Ties(s + [e], cmp, y) == Ties(s, cmp, y) + (if cmp(y, e) == 0.0 then [e] else [])
  {
    assert (s + [e])[..|s + [e]| - 1] == s;
  }

  lemma ConsistentReflexive<T(!new)>(cmp: (T, T) -> real, a: T)
    requires Consistent(cmp)
    ensures cmp(a, a) == 0.0
  {
  }

  lemma ConsistentAntisymmetric<T(!new)>(cmp: (T, T) -> real, a: T, b: T)
    requires Consistent(cmp)
    requires cmp(a, b) <= 0.0 && cmp(b, a) <= 0.0
    ensures cmp(a, b) == 0.0
  {
  }

  lemma TiesDropLast<T>(i1: seq<T>, i2: seq<T>, e: T, cmp: (T, T) -> real)
    requires forall y :: Ties(i1 + [e], cmp, y) == Ties(i2 + [e], cmp, y)
    ensures forall y :: Ties(i1, cmp, y) == Ties(i2, cmp, y)
  {
    forall y ensures Ties(i1, cmp, y) == Ties(i2, cmp, y) {
      TiesSnoc(i1, e, cmp, y);
      TiesSnoc(i2, e, cmp, y);
      var u, v := Ties(i1 + [e], cmp, y), Ties(i2 + [e], cmp, y);
      assert u == v;
      if cmp(y, e) == 0.0 {
        assert Ties(i1, cmp, y) == u[..|u| - 1];
        assert Ties(i2, cmp, y) == v[..|v| - 1];
      } else {
        assert Ties(i1, cmp, y) == u;
        assert Ties(i2, cmp, y) == v;
      }
    }
  }

  /** A sorted sequence ends with a greatest element. */
  lemma SortedLastIsGreatest<T>(t: seq<T>, cmp: (T, T) -> real, y: T)
    requires Sorted(t, cmp) && t != [] && y in t
    ensures y == t[|t| - 1] || cmp(y, t[|t| - 1]) <= 0.0
  {
  }

  /**
   * Two sorted sequences end alike when the groups of their last elements
   * agree (stated for the two last elements `a` and `b` only).
   */
  lemma SortedStableSameLast<T>(t1: seq<T>, t2: seq<T>, cmp: (T, T) -> real)
    requires Sorted(t1, cmp) && Sorted(t2, cmp)
    requires t1 != [] && t2 != []
    requires var a, b := t1[|t1| - 1], t2[|t2| - 1];
      && cmp(a, a) == 0.0 && cmp(b, b) == 0.0
      && (cmp(a, b) <= 0.0 && cmp(b, a) <= 0.0 ==> cmp(a, b) == 0.0)
      && Ties(t1, cmp, a) == Ties(t2, cmp, a)
      && Ties(t1, cmp, b) == Ties(t2, cmp, b)
    ensures t1[|t1| - 1] == t2[|t2| - 1]
  {
    var a, b := t1[|t1| - 1], t2[|t2| - 1];
    assert cmp(b, a) <= 0.0 by {
      assert b in Ties(t2, cmp, b);
      TiesMembers(t1, cmp, b, b);
      SortedLastIsGreatest(t1, cmp, b);
    }
    assert cmp(a, b) <= 0.0 by {
      assert a in Ties(t1, cmp, a);
      TiesMembers(t2, cmp, a, a);
      SortedLastIsGreatest(t2, cmp, a);
    }
    var ta := Ties(t1, cmp, a);
    assert ta[|ta| - 1] == a;
    assert ta == Ties(t2, cmp, a);
  }

  /** The last element of a non-empty sequence belongs to its own group. */
  lemma LastTies<T(!new)>(t: seq<T>, cmp: (T, T) -> real)
    requires Consistent(cmp) && t != []
    ensures t[|t| - 1] in Ties(t, cmp, t[|t| - 1])
  {
    ConsistentReflexive(cmp, t[|t| - 1]);
  }

  /**
   * Any two sequences that are both sorted and agree on the order of every
   * group of equal elements are identical: a stable sort has exactly one
   * possible outcome, whatever algorithm the engine runs.
   */
  lemma {:induction false} SortedStableUnique<T(!new)>(t1: seq<T>, t2: seq<T>, cmp: (T, T) -> real)
    requires Consistent(cmp)
    requires Sorted(t1, cmp) && Sorted(t2, cmp)
    requires forall y :: Ties(t1, cmp, y) == Ties(t2, cmp, y)
    ensures t1 == t2
    decreases |t1| + |t2|
  {
    if t1 == [] && t2 == [] {
    } else if t1 == [] {
      LastTies(t2, cmp);
    } else if t2 == [] {
      LastTies(t1, cmp);
    } else {
      SameLast(t1, t2, cmp);
      var a := t1[|t1| - 1];
      var i1, i2 := t1[..|t1| - 1], t2[..|t2| - 1];
      assert t1 == i1 + [a] && t2 == i2 + [a];
      TiesDropLast(i1, i2, a, cmp);
      assert Sorted(i1, cmp) && Sorted(i2, cmp);
      SortedStableUnique(i1, i2, cmp);
    }
  }

  /** Two non-empty sorted sequences whose groups all agree end with the same element. */
  lemma SameLast<T(!new)>(t1: seq<T>, t2: seq<T>, cmp: (T, T) -> real)
    requires Consistent(cmp)
    requires Sorted(t1, cmp) && Sorted(t2, cmp) && t1 != [] && t2 != []
    requires forall y :: Ties(t1, cmp, y) == Ties(t2, cmp, y)
    ensures t1[|t1| - 1] == t2[|t2| - 1]
  {
    var a, b := t1[|t1| - 1], t2[|t2| - 1];
    ConsistentReflexive(cmp, a);
    ConsistentReflexive(cmp, b);
    if cmp(a, b) <= 0.0 && cmp(b, a) <= 0.0 {
      ConsistentAntisymmetric(cmp, a, b);
    }
    assert Ties(t1, cmp, a) == Ties(t2, cmp, a);
    assert Ties(t1, cmp, b) == Ties(t2, cmp, b);
    SortedStableSameLast(t1, t2, cmp);
  }

  /**
   * Whatever algorithm produces it, a sequence that is ordered by `cmp` and
   * keeps every group of equal elements in its input order is `Sort(s, cmp)`.
   */
  lemma SortIsTheStableSort<T(!new)>(s: seq<T>, t: seq<T>, cmp: (T, T) -> real)
    requires Consistent(cmp)
    requires Sorted(t, cmp)
    requires forall y :: Ties(t, cmp, y) == Ties(s, cmp, y)
    ensures t == Sort(s, cmp)
  {
    SortSorted(s, cmp);
    forall y ensures Ties(t, cmp, y) == Ties(Sort(s, cmp), cmp, y) {
      SortStable(s, cmp, y);
    }
    SortedStableUnique(t, Sort(s, cmp), cmp);
  }

  /**
   * `Insert` places `x` between `p` and `q` when the last element of `p`
   * sorts no later than `x` and every element of `q` sorts after it.
   */
  lemma {:induction false} InsertBetween<T>(p: seq<T>, q: seq<T>, x: T, cmp: (T, T) -> real)
    requires p == [] || cmp(p[|p| - 1], x) <= 0.0
    requires forall k :: 0 <= k < |q| ==> cmp(q[k], x) > 0.0
    ensures Insert(p + q, x, cmp) == p + [x] + q
    decreases |q|
  {
    if q == [] {
      assert p + q == p;
    } else {
      var q', last := q[..|q| - 1], q[|q| - 1];
      assert (p + q)[..|p + q| - 1] == p + q';
      assert (p + q)[|p + q| - 1] == last;
      InsertBetween(p, q', x, cmp);
      assert p + [x] + q == (p + [x] + q') + [last];
    }
  }

  /**
   * Moves every element of `a[..i]` that sorts after `x`, counting from the
   * right, one place to the right, and returns the index of the gap left.
   */
  method ShiftGreater<T>(a: array<T>, i: nat, x: T, cmp: (T, T) -> real) returns (j: nat)
    requires i < a.Length
    modifies a
    ensures j <= i
    ensures forall k :: 0 <= k < j ==> a[k] == old(a[k])
    ensures forall k :: j < k <= i ==> a[k] == old(a[k - 1])
    ensures forall k :: i < k < a.Length ==> a[k] == old(a[k])
    ensures j == 0 || cmp(old(a[j - 1]), x) <= 0.0
    ensures forall k :: j <= k < i ==> cmp(old(a[k]), x) > 0.0
  {
    j := i;
    while j > 0 && cmp(a[j - 1], x) > 0.0
      invariant j <= i
      invariant forall k :: 0 <= k < j ==> a[k] == old(a[k])
      invariant forall k :: j < k <= i ==> a[k] == old(a[k - 1])
      invariant forall k :: i < k < a.Length ==> a[k] == old(a[k])
      invariant forall k :: j <= k < i ==> cmp(old(a[k]), x) > 0.0
    {
      a[j] := a[j - 1];
      j := j - 1;
    }
  }

  /**
   * The sequence-level content of one insertion step: `o` is the array
   * before the step, `sh` after shifting the greater elements one place to
   * the right, and writing `x` (the former `o[i]`) at the gap `j` yields
   * the insertion of `x` into `o[..i]`.
   */
  lemma {:induction false} ShiftedIsInsert<T>(o: seq<T>, sh: seq<T>, i: nat, j: nat, cmp: (T, T) -> real)
    requires i < |o| == |sh| && j <= i
    requires forall k :: 0 <= k < j ==> sh[k] == o[k]
    requires forall k :: j < k <= i ==> sh[k] == o[k - 1]
    requires j == 0 || cmp(o[j - 1], o[i]) <= 0.0
    requires forall k :: j <= k < i ==> cmp(o[k], o[i]) > 0.0
    ensures sh[j := o[i]][..i + 1] == Insert(o[..i], o[i], cmp)
  {
    var x, s := o[i], o[..i];
    var p, q := s[..j], s[j..];
    assert s == p + q;
    forall k | 0 <= k < |q| ensures cmp(q[k], x) > 0.0 {
      assert q[k] == o[j + k];
    }
    InsertBetween(p, q, x, cmp);
    var b := sh[j := x][..i + 1];
    assert |b| == |p| + 1 + |q|;
    forall k | 0 <= k < |b| ensures b[k] == (p + [x] + q)[k] {
      if k < j {
        assert b[k] == o[k];
      } else if k > j {
        assert b[k] == o[k - 1] == q[k - 1 - j];
      }
    }
  }

  /**
   * One step of the in-place insertion sort: `a[..i]` is already sorted;
   * `a[i]` is moved left past every element that compares greater than it.
   */
  method InsertInPlace<T>(a: array<T>, i: nat, cmp: (T, T) -> real)
    requires i < a.Length
    modifies a
    ensures a[..i + 1] == Insert(old(a[..i]), old(a[i]), cmp)
    ensures forall k :: i < k < a.Length ==> a[k] == old(a[k])
  {
    ghost var o := a[..];
    var x := a[i];
    var j := ShiftGreater(a, i, x, cmp);
    ghost var sh := a[..];
    a[j] := x;
    assert a[..] == sh[j := x];
    ShiftedIsInsert(o, sh, i, j, cmp);
    assert a[..i + 1] == a[..][..i + 1];
    assert o[..i] == old(a[..i]);
  }

  /**
   * The engine's in-place sort: afterwards the array holds exactly the
   * stable sort of its former contents.
   */
  method SortInPlace<T>(a: array<T>, cmp: (T, T) -> real)
    modifies a
    ensures a[..] == Sort(old(a[..]), cmp)
  {
    ghost var t := a[..];
    var i := 0;
    while i < a.Length
      invariant 0 <= i <= a.Length
      invariant a[..i] == Sort(t[..i], cmp)
      invariant forall k :: i <= k < a.Length ==> a[k] == t[k]
    {
      ghost var before := a[..i];
      InsertInPlace(a, i, cmp);
      assert t[..i + 1][..i] == t[..i];
      assert a[..i + 1] == Insert(before, t[i], cmp);
      i := i + 1;
    }
    assert t[..a.Length] == t;
  }

  /**
   * `let filtered = [...list]; filtered.sort(cmp)`: copies the list into a
   * fresh array and sorts that array in place.
   */
  method SortCopy<T>(s: seq<T>, cmp: (T, T) -> real) returns (r: seq<T>)
    ensures r == Sort(s, cmp)
  {
    var a := new T[|s|](i requires 0 <= i < |s| => s[i]);
    assert a[..] == s;
    SortInPlace(a, cmp);
    r := a[..];
  }
}
