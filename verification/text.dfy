/**
 * The string operations the listing pages rely on: `toLowerCase`,
 * `includes`, `trim` and `localeCompare`, over `string` (a sequence of
 * Unicode code points; JavaScript strings are UTF-16 code units).
 */
module Text {

  /** Lower-cases one character; only the ASCII letters A-Z are mapped. */
  function LowerChar(c: char): char {
    if 'A' <= c <= 'Z' then (c as int + 32) as char else c
  }

  /** `s.toLowerCase()`, restricted to ASCII case folding. */
  function Lower(s: string): (r: string)
    ensures |r| == |s|
    ensures forall i :: 0 <= i < |s| ==> r[i] == LowerChar(s[i])
    ensures forall i :: 0 <= i < |r| ==> !('A' <= r[i] <= 'Z')
  {
    seq(|s|, i requires 0 <= i < |s| => LowerChar(s[i]))
  }

  predicate StartsWith(s: string, prefix: string) {
    |prefix| <= |s| && s[..|prefix|] == prefix
  }

  /** The needle occurs in the hay starting at offset `i`. */
  predicate OccursAt(hay: string, needle: string, i: int) {
    0 <= i && i + |needle| <= |hay| && hay[i..i + |needle|] == needle
  }

  /** `hay.includes(needle)`: the needle occurs at some offset of the hay. */
  function Contains(hay: string, needle: string): (r: bool)
    ensures r <==> exists i :: OccursAt(hay, needle, i)
  {
    if StartsWith(hay, needle) then
      assert OccursAt(hay, needle, 0);
      true
    else if hay == [] then
      false
    else
      var r := Contains(hay[1..], needle);
      ContainsStep(hay, needle, r);
      r
  }

  lemma ContainsStep(hay: string, needle: string, tail: bool)
    requires hay != [] && !StartsWith(hay, needle)
    requires tail <==> exists i :: OccursAt(hay[1..], needle, i)
    ensures tail <==> exists i :: OccursAt(hay, needle, i)
  {
    if tail {
      var i :| OccursAt(hay[1..], needle, i);
      assert hay[i + 1..i + 1 + |needle|] == hay[1..][i..i + |needle|];
      assert OccursAt(hay, needle, i + 1);
    } else {
      forall i | OccursAt(hay, needle, i)
        ensures false
      {
        if i > 0 {
          assert hay[i..i + |needle|] == hay[1..][i - 1..i - 1 + |needle|];
          assert OccursAt(hay[1..], needle, i - 1);
        }
      }
    }
  }

  /** `cats.some(cat => cat.toLowerCase().includes(needle))`. */
  predicate AnyContains(cats: seq<string>, needle: string) {
    exists i :: 0 <= i < |cats| && Contains(Lower(cats[i]), needle)
  }

  /**
   * The characters `String.prototype.trim` removes: the ECMAScript
   * WhiteSpace and LineTerminator code points.
   */
  predicate IsWhitespace(c: char) {
    var n := c as int;
    n == 0x09 || n == 0x0A || n == 0x0B || n == 0x0C || n == 0x0D || n == 0x20 ||
    n == 0xA0 || n == 0x1680 || (0x2000 <= n <= 0x200A) || n == 0x2028 || n == 0x2029 ||
    n == 0x202F || n == 0x205F || n == 0x3000 || n == 0xFEFF
  }

  predicate AllWhitespace(s: string) {
    forall i :: 0 <= i < |s| ==> IsWhitespace(s[i])
  }

  /** Every character of `s` from index `lo` up to `hi` (exclusive) is whitespace. */
  predicate WhitespaceBetween(s: string, lo: int, hi: int) {
    forall k :: lo <= k < hi && 0 <= k < |s| ==> IsWhitespace(s[k])
  }

  /** The first index from `k` on that does not hold whitespace, or `|s|`. */
  function SkipForward(s: string, k: nat): (n: nat)
    requires k <= |s|
    ensures k <= n <= |s| && WhitespaceBetween(s, k, n)
    ensures n == |s| || !IsWhitespace(s[n])
    decreases |s| - k
  {
    if k < |s| && IsWhitespace(s[k]) then SkipForward(s, k + 1) else k
  }

  /** The least index `n` down from `k`, and not below `lo`, such that `s[n..k]` is whitespace. */
  function SkipBackward(s: string, lo: nat, k: nat): (n: nat)
    requires lo <= k <= |s|
    ensures lo <= n <= k && WhitespaceBetween(s, n, k)
    ensures n == lo || !IsWhitespace(s[n - 1])
    decreases k
  {
    if k > lo && IsWhitespace(s[k - 1]) then SkipBackward(s, lo, k - 1) else k
  }

  /**
   * `s.trim()`: the result is a contiguous piece of `s`, everything cut
   * off on either side is whitespace, and the result neither starts nor
   * ends with whitespace.
   */
  function Trim(s: string): (r: string)
    ensures exists i, j :: 0 <= i <= j <= |s| && r == s[i..j] &&
                           WhitespaceBetween(s, 0, i) && WhitespaceBetween(s, j, |s|)
    ensures r == [] || (!IsWhitespace(r[0]) && !IsWhitespace(r[|r| - 1]))
  {
    var i := SkipForward(s, 0);
    var j := SkipBackward(s, i, |s|);
    assert j > i ==> s[i..j][0] == s[i] && s[i..j][j - i - 1] == s[j - 1];
    s[i..j]
  }

  /** A query that `trim()` reduces to the empty string is all whitespace, and conversely. */
  lemma TrimEmptyIffAllWhitespace(s: string)
    ensures Trim(s) == [] <==> AllWhitespace(s)
  {
    var i := SkipForward(s, 0);
    var j := SkipBackward(s, i, |s|);
    if AllWhitespace(s) {
      assert i == |s|;
    }
  }

  /** Trimming twice is trimming once. */
  lemma TrimIdempotent(s: string)
    ensures Trim(Trim(s)) == Trim(s)
  {
    var r := Trim(s);
    if r != [] {
      assert SkipForward(r, 0) == 0;
      assert SkipBackward(r, 0, |r|) == |r|;
      assert r[0..|r|] == r;
    }
  }

  /**
   * `a.localeCompare(b)`, modelled as code-point lexicographic order:
   * negative when `a` sorts first, zero when equal, positive otherwise.
   */
  function StrCompare(a: string, b: string): (r: int)
    ensures -1 <= r <= 1
    ensures r == 0 <==> a == b
  {
    if a == [] && b == [] then 0
    else if a == [] then -1
    else if b == [] then 1
    else if a[0] < b[0] then -1
    else if a[0] > b[0] then 1
    else
      var r := StrCompare(a[1..], b[1..]);
      assert a == [a[0]] + a[1..] && b == [b[0]] + b[1..];
      r
  }

  lemma {:induction false} StrCompareAntisymmetric(a: string, b: string)
    ensures StrCompare(a, b) == -StrCompare(b, a)
  {
    if a != [] && b != [] && a[0] == b[0] {
      StrCompareAntisymmetric(a[1..], b[1..]);
    }
  }

  lemma {:induction false} StrCompareTransitive(a: string, b: string, c: string)
    requires StrCompare(a, b) <= 0 && StrCompare(b, c) <= 0
    ensures StrCompare(a, c) <= 0
  {
    if a != [] && b != [] && c != [] && a[0] == b[0] && b[0] == c[0] {
      StrCompareTransitive(a[1..], b[1..], c[1..]);
    }
  }
}
