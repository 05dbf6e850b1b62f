/** Ascending sort of integer slices, the model of Go's `sort.Ints`.
    `Sort` is an insertion sort; `SortedUnique` shows that every sorted
    permutation of a sequence equals it, so the choice of algorithm does
    not matter to anything proved about its callers. */
module Sorting {

  ghost predicate Sorted(s: seq<int>)
  {
    forall i, j :: 0 <= i < j < |s| ==> s[i] <= s[j]
  }

  /** Prepending an element no greater than the head keeps a sequence sorted. */
  lemma ConsSorted(h: int, t: seq<int>)
    requires Sorted(t) && (t == [] || h <= t[0])
    ensures Sorted([h] + t)
  {
    var r := [h] + t;
    forall i, j | 0 <= i < j < |r|
      ensures r[i] <= r[j]
    {
      if i > 0 {
        assert r[i] == t[i - 1] && r[j] == t[j - 1];
      } else {
        assert r[j] == t[j - 1];
      }
    }
  }

  function Insert(x: int, s: seq<int>): (r: seq<int>)
    requires Sorted(s)
    ensures |r| == |s| + 1
    ensures r[0] == if s == [] || x <= s[0] then x else s[0]
    ensures multiset(r) == multiset(s) + multiset{x}
    ensures Sorted(r)
  {
    if s == [] then [x]
    else if x <= s[0] then
      ConsSorted(x, s);
      [x] + s
    else
      assert s == [s[0]] + s[1..];
      var tail := Insert(x, s[1..]);
      ConsSorted(s[0], tail);
      [s[0]] + tail
  }

  function Sort(s: seq<int>): (r: seq<int>)
    ensures Sorted(r)
    ensures multiset(r) == multiset(s)
    ensures |r| == |s|
  {
    if s == [] then []
    else
      assert s == [s[0]] + s[1..];
      Insert(s[0], Sort(s[1..]))
  }

  lemma HeadIsLeast(a: seq<int>, y: int)
    requires Sorted(a) && y in multiset(a)
    ensures a[0] <= y
  {
    var i :| 0 <= i < |a| && a[i] == y;
  }

  /** Two sorted sequences with the same elements are equal. */
  lemma {:induction false} SortedUnique(a: seq<int>, b: seq<int>)
    requires Sorted(a) && Sorted(b)
    requires multiset(a) == multiset(b)
    ensures a == b
  {
    if a == [] {
      assert |b| == |multiset(b)| == 0;
    } else {
      assert |b| == |multiset(b)| == |multiset(a)| == |a|;
      HeadIsLeast(b, a[0]);
      HeadIsLeast(a, b[0]);
      var a', b' := a[1..], b[1..];
      assert a == [a[0]] + a';
      assert b == [b[0]] + b';
      assert a[0] == b[0];
      assert multiset(a) == multiset{a[0]} + multiset(a');
      assert multiset(b) == multiset{b[0]} + multiset(b');
      assert multiset(a') == multiset(a) - multiset{a[0]};
      assert multiset(b') == multiset(b) - multiset{b[0]};
      assert Sorted(a') && Sorted(b');
      SortedUnique(a', b');
    }
  }

  /** Which side of a pivot is being counted. */
  datatype Side = Below | Above

  predicate Beyond(y: int, side: Side, x: int)
  {
    if side == Below then y < x else y > x
  }

  /** The number of elements of `s` strictly below (or above) `x`. */
  function Count(s: seq<int>, side: Side, x: int): (n: nat)
    ensures n <= |s|
  {
    if s == [] then 0 else (if Beyond(s[0], side, x) then 1 else 0) + Count(s[1..], side, x)
  }

  lemma {:induction false} CountAppend(a: seq<int>, b: seq<int>, side: Side, x: int)
    ensures Count(a + b, side, x) == Count(a, side, x) + Count(b, side, x)
  {
    if a != [] {
      assert (a + b)[1..] == a[1..] + b;
      CountAppend(a[1..], b, side, x);
    } else {
      assert a + b == b;
    }
  }

  lemma {:induction false} CountNone(s: seq<int>, side: Side, x: int)
    requires forall k :: 0 <= k < |s| ==> !Beyond(s[k], side, x)
    ensures Count(s, side, x) == 0
  {
    if s != [] {
      CountNone(s[1..], side, x);
    }
  }

  lemma {:induction false} CountInsert(y: int, s: seq<int>, side: Side, x: int)
    requires Sorted(s)
    ensures Count(Insert(y, s), side, x) == Count(s, side, x) + (if Beyond(y, side, x) then 1 else 0)
  {
    var r := Insert(y, s);
    if s != [] && y > s[0] {
      CountInsert(y, s[1..], side, x);
      assert r == [s[0]] + Insert(y, s[1..]);
      assert r[1..] == Insert(y, s[1..]);
    } else {
      assert r == [y] + s;
      assert r[1..] == s;
    }
  }

  /** Sorting does not change how many elements lie beyond a pivot. */
  lemma {:induction false} CountSort(s: seq<int>, side: Side, x: int)
    ensures Count(Sort(s), side, x) == Count(s, side, x)
  {
    if s != [] {
      CountSort(s[1..], side, x);
      CountInsert(s[0], Sort(s[1..]), side, x);
    }
  }

  /** In a sorted sequence, at most `k` elements are strictly below the
      one at index `k`, and at most `|t| - 1 - k` are strictly above it. */
  lemma RankBounds(t: seq<int>, k: int)
    requires Sorted(t) && 0 <= k < |t|
    ensures Count(t, Below, t[k]) <= k
    ensures Count(t, Above, t[k]) <= |t| - 1 - k
  {
    var x := t[k];
    var lo, hi := t[..k], t[k..];
    assert t == lo + hi;
    CountAppend(lo, hi, Below, x);
    forall j | 0 <= j < |hi|
      ensures !Beyond(hi[j], Below, x)
    {
      assert hi[j] == t[k + j];
    }
    CountNone(hi, Below, x);
    var lo', hi' := t[..k + 1], t[k + 1..];
    assert t == lo' + hi';
    CountAppend(lo', hi', Above, x);
    forall j | 0 <= j < |lo'|
      ensures !Beyond(lo'[j], Above, x)
    {
      assert lo'[j] == t[j];
    }
    CountNone(lo', Above, x);
  }
}
