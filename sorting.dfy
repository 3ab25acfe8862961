/**
 * `Array.prototype.sort` with a comparator, as a stable insertion sort. JavaScript
 * only promises that the result is ordered by the comparator, is a permutation of the
 * input and keeps equal elements in their original order; the lemmas below prove the
 * first two of this definition.
 */
module Sorting {

  /**
   * A comparator the way `sort` expects one: its sign is antisymmetric and "not
   * greater" is transitive.
   */
  ghost predicate Consistent<T(!new)>(cmp: (T, T) -> int) {
    && (forall a, b :: cmp(a, b) < 0 <==> cmp(b, a) > 0)
    && (forall a, b, c :: cmp(a, b) <= 0 && cmp(b, c) <= 0 ==> cmp(a, c) <= 0)
  }

  ghost predicate SortedBy<T>(s: seq<T>, cmp: (T, T) -> int) {
    forall i, j :: 0 <= i < j < |s| ==> cmp(s[i], s[j]) <= 0
  }

  /** Puts `x` before the first element it does not compare greater than. */
  function Insert<T>(x: T, s: seq<T>, cmp: (T, T) -> int): (r: seq<T>)
    ensures multiset(r) == multiset(s) + multiset{x}
    ensures |r| == |s| + 1
  {
    if |s| == 0 then [x]
    else if cmp(x, s[0]) <= 0 then [x] + s
    else
      assert s == [s[0]] + s[1..];
      [s[0]] + Insert(x, s[1..], cmp)
  }

  /** `s.slice().sort(cmp)`: a permutation of the input. */
  function Sort<T>(s: seq<T>, cmp: (T, T) -> int): (r: seq<T>)
    ensures multiset(r) == multiset(s) && |r| == |s|
  {
    if |s| == 0 then []
    else
      assert s == [s[0]] + s[1..];
      Insert(s[0], Sort(s[1..], cmp), cmp)
  }

  /** An element no greater than every element of a sorted list can go in front of it. */
  lemma PrependSorted<T(!new)>(y: T, t: seq<T>, cmp: (T, T) -> int)
    requires SortedBy(t, cmp)
    requires forall j :: 0 <= j < |t| ==> cmp(y, t[j]) <= 0
    ensures SortedBy([y] + t, cmp)
  {
    var r := [y] + t;
    forall i, j | 0 <= i < j < |r| ensures cmp(r[i], r[j]) <= 0 {
      if i > 0 {
        assert r[i] == t[i - 1] && r[j] == t[j - 1];
      }
    }
  }

  /** The head of a sorted list is no greater than anything inserted after it. */
  lemma HeadBelowInsert<T(!new)>(x: T, s: seq<T>, t: seq<T>, cmp: (T, T) -> int)
    requires SortedBy(s, cmp) && |s| > 0 && cmp(s[0], x) <= 0 && t == Insert(x, s[1..], cmp)
    ensures forall j :: 0 <= j < |t| ==> cmp(s[0], t[j]) <= 0
  {
    forall j | 0 <= j < |t| ensures cmp(s[0], t[j]) <= 0 {
      assert t[j] in multiset(t);
      if t[j] != x {
        assert t[j] in multiset(s[1..]);
        var k :| 0 <= k < |s[1..]| && s[1..][k] == t[j];
        assert s[k + 1] == t[j];
      }
    }
  }

  lemma {:induction false} InsertSorted<T(!new)>(x: T, s: seq<T>, cmp: (T, T) -> int)
    requires Consistent(cmp) && SortedBy(s, cmp)
    ensures SortedBy(Insert(x, s, cmp), cmp)
    decreases |s|
  {
    if |s| == 0 {
    } else if cmp(x, s[0]) <= 0 {
      forall j | 0 <= j < |s| ensures cmp(x, s[j]) <= 0 {
        if j > 0 {
          assert cmp(s[0], s[j]) <= 0;
        }
      }
      PrependSorted(x, s, cmp);
    } else {
      assert cmp(s[0], x) < 0;
      assert SortedBy(s[1..], cmp);
      var t := Insert(x, s[1..], cmp);
      InsertSorted(x, s[1..], cmp);
      HeadBelowInsert(x, s, t, cmp);
      PrependSorted(s[0], t, cmp);
      assert Insert(x, s, cmp) == [s[0]] + t;
    }
  }

  /** The sorted list is ordered by a consistent comparator. */
  lemma {:induction false} SortSorts<T(!new)>(s: seq<T>, cmp: (T, T) -> int)
    requires Consistent(cmp)
    ensures SortedBy(Sort(s, cmp), cmp)
  {
    if |s| > 0 {
      SortSorts(s[1..], cmp);
      InsertSorted(s[0], Sort(s[1..], cmp), cmp);
    }
  }

  /** Reversing every comparison keeps a comparator consistent. */
  lemma NegatedConsistent<T(!new)>(cmp: (T, T) -> int)
    requires Consistent(cmp)
    ensures Consistent((a, b) => -cmp(a, b))
  {
    var neg := (a, b) => -cmp(a, b);
    forall a, b, c | neg(a, b) <= 0 && neg(b, c) <= 0 ensures neg(a, c) <= 0 {
      assert cmp(b, a) <= 0 && cmp(c, b) <= 0;
      assert cmp(c, a) <= 0;
    }
  }
}
