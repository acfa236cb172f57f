/** `Array.prototype.filter` and the facts about it that the pages use. */
module Seqs {

  /**
   * `s.filter(p)`: keeps, in order, the elements that satisfy `p`.
   */
  function Filter<T(!new)>(s: seq<T>, p: T -> bool): (r: seq<T>)
    ensures |r| <= |s|
    ensures forall i :: 0 <= i < |r| ==> p(r[i])
  {
    if s == [] then []
    else
      var rest := Filter(s[1..], p);
      assert s == [s[0]] + s[1..];
      (if p(s[0]) then [s[0]] else []) + rest
  }

  /**
   * Every element keeps its multiplicity when it passes and disappears
   * when it does not: nothing is invented and nothing is duplicated.
   */
  lemma {:induction false} FilterMultiplicity<T(!new)>(s: seq<T>, p: T -> bool)
    ensures forall x :: multiset(Filter(s, p))[x] == if p(x) then multiset(s)[x] else 0
  {
    if s != [] {
      FilterMultiplicity(s[1..], p);
      assert s == [s[0]] + s[1..];
    }
  }

  lemma {:induction false} FilterAppend<T(!new)>(a: seq<T>, b: seq<T>, p: T -> bool)
    ensures Filter(a + b, p) == Filter(a, p) + Filter(b, p)
  {
    if a == [] {
      assert a + b == b;
    } else {
      assert (a + b)[1..] == a[1..] + b;
      FilterAppend(a[1..], b, p);
    }
  }

  /** Filtering by a predicate every element satisfies is the identity. */
  lemma {:induction false} FilterKeepsAll<T(!new)>(s: seq<T>, p: T -> bool)
    requires forall i :: 0 <= i < |s| ==> p(s[i])
    ensures Filter(s, p) == s
  {
    if s != [] {
      FilterKeepsAll(s[1..], p);
    }
  }

  /** Filtering by a predicate no element satisfies leaves nothing. */
  lemma {:induction false} FilterDropsAll<T(!new)>(s: seq<T>, p: T -> bool)
    requires forall i :: 0 <= i < |s| ==> !p(s[i])
    ensures Filter(s, p) == []
  {
    if s != [] {
      FilterDropsAll(s[1..], p);
    }
  }

  /** Filtering by `p` and then by `q` is filtering once by their conjunction. */
  lemma {:induction false} FilterTwice<T(!new)>(s: seq<T>, p: T -> bool, q: T -> bool, both: T -> bool)
    requires forall x :: both(x) == (p(x) && q(x))
    ensures Filter(Filter(s, p), q) == Filter(s, both)
  {
    if s != [] {
      var tail := Filter(s[1..], p);
      FilterTwice(s[1..], p, q, both);
      if p(s[0]) {
        var f := Filter(s, p);
        assert f == [s[0]] + tail;
        assert f[1..] == tail;
        assert Filter(f, q) == (if q(s[0]) then [s[0]] else []) + Filter(tail, q);
      } else {
        assert Filter(s, p) == tail;
      }
    }
  }

  /** Predicates that agree on every value filter alike. */
  lemma {:induction false} FilterAgree<T(!new)>(s: seq<T>, p: T -> bool, q: T -> bool)
    requires forall x :: p(x) == q(x)
    ensures Filter(s, p) == Filter(s, q)
  {
    if s != [] {
      FilterAgree(s[1..], p, q);
    }
  }

  /** Filtering a sequence extended by one element. */
  lemma FilterSnoc<T(!new)>(s: seq<T>, x: T, p: T -> bool)
    ensures Filter(s + [x], p) == Filter(s, p) + (if p(x) then [x] else [])
  {
    FilterAppend(s, [x], p);
  }

  /**
   * One stage of a filter pipeline whose stage runs only when `active`:
   * after it, the list is the source filtered by everything so far.
   */
  lemma FilterStage<T(!new)>(s: seq<T>, before: T -> bool, stage: T -> bool, active: bool, after: T -> bool)
    requires forall x :: after(x) == (before(x) && (!active || stage(x)))
    ensures (if active then Filter(Filter(s, before), stage) else Filter(s, before)) == Filter(s, after)
  {
    if active {
      FilterTwice(s, before, stage, after);
    } else {
      FilterAgree(s, before, after);
    }
  }
}
