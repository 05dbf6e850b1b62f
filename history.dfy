/** The bounded measurement histories of main.go: `pushSlice`, the
    drop-oldest append used for the minute and hourly buffers, and
    `hourMedian`, the representative weight of an hour. */
module History {
  import opened GoInt
  import opened Sorting

  /** Capacity of the minute buffer (8 hours of samples). */
  const BacklogMinutes: int := 8 * 60
  /** Capacity of the hourly buffers (12 days). */
  const MaxHours: int := 12 * 24
  /** `hourMedian` looks at no more than this many minute samples. */
  const MedianWindow: int := 60

  /** The last `n` elements of `s`. */
  function Last(s: seq<int>, n: nat): seq<int>
    requires n <= |s|
  {
    s[|s| - n..]
  }

  /** `pushSlice(s, v, maxLen)`: appends `v`; when the result would exceed
      `maxLen`, the oldest elements are shifted out first. */
  function PushSlice(s: seq<int>, v: int, maxLen: int): (r: seq<int>)
    requires maxLen >= 1
    ensures |r| == Min(|s| + 1, maxLen)
    ensures r == Last(s + [v], |r|)
    ensures r[|r| - 1] == v
  {
    var n := |s| + 1;
    if n > maxLen then
      s[n - maxLen..] + [v]
    else
      s + [v]
  }

  /** `v` pushed `k` times, one `pushSlice` after another. */
  function PushRepeat(s: seq<int>, v: int, k: nat, maxLen: int): seq<int>
    requires maxLen >= 1
  {
    if k == 0 then s else PushSlice(PushRepeat(s, v, k - 1, maxLen), v, maxLen)
  }

  lemma LastOfLast(x: seq<int>, a: nat, b: nat)
    requires b <= a <= |x|
    ensures Last(Last(x, a), b) == Last(x, b)
  {
  }

  lemma LastAppend(x: seq<int>, a: nat, v: int)
    requires a <= |x|
    ensures Last(x, a) + [v] == Last(x + [v], a + 1)
  {
  }

  lemma AppendRepeat(s: seq<int>, v: int, k: nat)
    ensures s + seq(k + 1, _ => v) == (s + seq(k, _ => v)) + [v]
  {
    assert seq(k + 1, _ => v) == seq(k, _ => v) + [v];
  }

  /** One push onto the newest `n` elements of `prev` keeps the newest
      elements of `prev ++ [v]`. */
  lemma PushStep(prev: seq<int>, v: int, n: nat, maxLen: int)
    requires maxLen >= 1 && n <= |prev|
    ensures PushSlice(Last(prev, n), v, maxLen) == Last(prev + [v], Min(n + 1, maxLen))
  {
    var r := PushSlice(Last(prev, n), v, maxLen);
    LastAppend(prev, n, v);
    LastOfLast(prev + [v], n + 1, |r|);
  }

  /** `k` repeated pushes keep the newest `min(|s| + k, maxLen)` elements
      of `s` followed by `k` copies of `v`. */
  lemma {:induction false} PushRepeatKeepsNewest(s: seq<int>, v: int, k: nat, maxLen: int)
    requires maxLen >= 1
    requires k >= 1 || |s| <= maxLen
    ensures var all := s + seq(k, _ => v);
      PushRepeat(s, v, k, maxLen) == Last(all, Min(|s| + k, maxLen))
  {
    if k == 0 {
      assert s + seq(0, _ => v) == s;
    } else {
      var prev := s + seq(k - 1, _ => v);
      AppendRepeat(s, v, k - 1);
      var n: nat;
      if k == 1 && |s| > maxLen {
        assert prev == s by {
          assert seq(0, _ => v) == [];
        }
        n := |s|;
        assert PushRepeat(s, v, k - 1, maxLen) == Last(prev, n);
      } else {
        PushRepeatKeepsNewest(s, v, k - 1, maxLen);
        n := Min(|s| + k - 1, maxLen);
      }
      PushStep(prev, v, n, maxLen);
    }
  }

  /** The samples `hourMedian` looks at: the newest `min(60, |m|)`. */
  function Window(m: seq<int>): (w: seq<int>)
    ensures |w| == Min(|m|, MedianWindow)
    ensures w == Last(m, |w|)
  {
    if |m| > MedianWindow then m[|m| - MedianWindow..] else m
  }

  /** `hourMedian`: the element at index `len/2` of the sorted window.
      The caller's slice is left alone (`hourMedian` in main.go sorts a copy). */
  function HourMedian(m: seq<int>): (r: int)
    requires |m| > 0
    ensures r in Window(m)
    ensures Count(Window(m), Below, r) <= |Window(m)| / 2
    ensures Count(Window(m), Above, r) <= |Window(m)| - 1 - |Window(m)| / 2
  {
    var w := Window(m);
    var d := Sort(w);
    var k := |d| / 2;
    RankBounds(d, k);
    CountSort(w, Below, d[k]);
    CountSort(w, Above, d[k]);
    assert d[k] in multiset(w);
    d[k]
  }

  /** An hour whose minute samples all read `x` has the median `x`
      (the cold-start scenario: sixty ticks reading 1500 give 1500). */
  lemma ConstantMedian(m: seq<int>, x: int)
    requires |m| > 0
    requires forall i :: 0 <= i < |m| ==> m[i] == x
    ensures HourMedian(m) == x
  {
    var w := Window(m);
    assert forall y :: y in w ==> y == x;
  }

  /** Any way of sorting the window gives the same median: the result
      does not depend on the sort algorithm. */
  lemma MedianOfAnySort(m: seq<int>, d: seq<int>)
    requires |m| > 0
    requires Sorted(d) && multiset(d) == multiset(Window(m))
    ensures |d| == |Window(m)| && HourMedian(m) == d[|d| / 2]
  {
    SortedUnique(d, Sort(Window(m)));
  }
}
