/** The integer part of `calculateDryoutAndWateringTime` (main.go):
    pairing the hourly watering history with the hourly weight history,
    classifying each consecutive pair as a dry-phase sample or a
    regression point, and the trimmed mean that turns the dry-phase
    samples into a dryout rate per 24 hours. The floating-point pump
    regression is not part of this module. */
module Estimator {
  import opened GoInt
  import opened Sorting

  /** A regression point: the weight gained over an hour that followed a
      watering, and that watering's duration. */
  datatype Gain = Gain(weightGain: int, wateringTime: int)

  /** Watering entry `i` is paired with this weight entry when it is not
      negative; the two histories are aligned at their newest ends. */
  function WeightIndex(weight: seq<int>, watering: seq<int>, i: int): int
  {
    |weight| - |watering| + i
  }

  /** Watering entry `i` has a predecessor pair: it is paired, and so is
      entry `i - 1`. */
  predicate HasPrevPair(weight: seq<int>, watering: seq<int>, i: int)
  {
    i >= 1 && WeightIndex(weight, watering, i) >= 1
  }

  /** The dry-phase sample contributed by watering entry `i`: the weight
      lost over the hour, when the hour before was weighed (positive
      weight) and not watered. */
  function DryAt(weight: seq<int>, watering: seq<int>, i: int): seq<int>
    requires 0 <= i < |watering|
  {
    var j := WeightIndex(weight, watering, i);
    if HasPrevPair(weight, watering, i) && weight[j - 1] > 0 && watering[i - 1] <= 0 then
      [weight[j - 1] - weight[j]]
    else
      []
  }

  /** The regression point contributed by watering entry `i`: the weight
      gained over the hour after a watering of positive duration. */
  function GainAt(weight: seq<int>, watering: seq<int>, i: int): seq<Gain>
    requires 0 <= i < |watering|
  {
    var j := WeightIndex(weight, watering, i);
    if HasPrevPair(weight, watering, i) && weight[j - 1] > 0 && watering[i - 1] > 0 then
      [Gain(weight[j] - weight[j - 1], watering[i - 1])]
    else
      []
  }

  /** Every weighed pair of hours is classified exactly once: as a
      dry-phase sample (after an hour without watering) or as a
      regression point (after a positive watering), never both, and
      each entry yields at most one of either. */
  lemma Classified(weight: seq<int>, watering: seq<int>, i: int)
    requires 0 <= i < |watering|
    ensures |DryAt(weight, watering, i)| <= 1 && |GainAt(weight, watering, i)| <= 1
    ensures DryAt(weight, watering, i) != [] ==> HasPrevPair(weight, watering, i) && watering[i - 1] <= 0
    ensures GainAt(weight, watering, i) != [] ==>
      HasPrevPair(weight, watering, i) && GainAt(weight, watering, i)[0].wateringTime > 0
    ensures GainAt(weight, watering, i) == [] || DryAt(weight, watering, i) == []
    ensures HasPrevPair(weight, watering, i) && weight[WeightIndex(weight, watering, i) - 1] > 0 ==>
      GainAt(weight, watering, i) != [] || DryAt(weight, watering, i) != []
  {
  }

  /** The dry-phase samples of the first `k` watering entries, in order. */
  function DrySamples(weight: seq<int>, watering: seq<int>, k: nat): seq<int>
    requires k <= |watering|
  {
    if k == 0 then [] else DrySamples(weight, watering, k - 1) + DryAt(weight, watering, k - 1)
  }

  /** The regression points of the first `k` watering entries, in order. */
  function Gains(weight: seq<int>, watering: seq<int>, k: nat): seq<Gain>
    requires k <= |watering|
  {
    if k == 0 then [] else Gains(weight, watering, k - 1) + GainAt(weight, watering, k - 1)
  }

  /** The accumulator loop of `calculateDryoutAndWateringTime`: it walks
      the waterings once, remembering the previous paired weight and the
      previous watering. Its result is the index-wise definition above. */
  method ExtractSamples(weight: seq<int>, watering: seq<int>) returns (dry: seq<int>, gains: seq<Gain>)
    ensures dry == DrySamples(weight, watering, |watering|)
    ensures gains == Gains(weight, watering, |watering|)
  {
    dry, gains := [], [];
    var prevw, prevm := 0, 0;
    var numw, numm := |watering|, |weight|;
    for i := 0 to numw
      invariant dry == DrySamples(weight, watering, i)
      invariant gains == Gains(weight, watering, i)
      invariant prevw == if i >= 1 then watering[i - 1] else 0
      invariant prevm == if HasPrevPair(weight, watering, i) then weight[numm - numw + i - 1] else 0
    {
      var w := watering[i];
      if numw - i <= numm {
        var m := weight[numm - numw + i];
        if prevm > 0 {
          if prevw > 0 {
            gains := gains + [Gain(m - prevm, prevw)];
          } else {
            dry := dry + [prevm - m];
          }
        }
        prevm := m;
      }
      prevw := w;
    }
  }

  /** Every dry-phase sample is the loss of one hour `j - 1 -> j` whose
      earlier weight was positive and whose earlier hour had no watering. */
  lemma {:induction false} DrySampleOrigin(weight: seq<int>, watering: seq<int>, k: nat, x: int)
    requires k <= |watering|
    requires x in DrySamples(weight, watering, k)
    ensures exists i :: (1 <= i < k && HasPrevPair(weight, watering, i) &&
      var j := WeightIndex(weight, watering, i);
      weight[j - 1] > 0 && watering[i - 1] <= 0 && x == weight[j - 1] - weight[j])
  {
    if k > 0 {
      if x in DrySamples(weight, watering, k - 1) {
        DrySampleOrigin(weight, watering, k - 1, x);
      } else {
        assert x in DryAt(weight, watering, k - 1);
      }
    }
  }

  /** Each watering entry yields at most one sample, and the first entry
      (which has no predecessor) none. */
  lemma {:induction false} SampleCount(weight: seq<int>, watering: seq<int>, k: nat)
    requires 1 <= k <= |watering|
    ensures |DrySamples(weight, watering, k)| + |Gains(weight, watering, k)| <= k - 1
  {
    if k > 1 {
      SampleCount(weight, watering, k - 1);
    }
  }

  /** Sum of a sequence, accumulated from the front as the loop of `calculateDryoutAndWateringTime` does. */
  function Sum(s: seq<int>): int
  {
    if s == [] then 0 else Sum(s[..|s| - 1]) + s[|s| - 1]
  }

  /** What `calculateDryoutAndWateringTime` keeps of the sorted samples
      `t`: `t[n/6 : n - n/6]`, dropping `n/6` outliers at each end. It
      is never empty, is drawn from `t`, and is sorted when `t` is. */
  function Trim(t: seq<int>): (a: seq<int>)
    requires t != []
    ensures 1 <= |a| == |t| - 2 * (|t| / 6)
    ensures multiset(a) <= multiset(t)
    ensures Sorted(t) ==> Sorted(a)
  {
    var f := |t| / 6;
    TrimCount(|t|);
    SliceFrom(t, f, |t| - f);
    SortedSlice(t, f, |t| - f);
    t[f..|t| - f]
  }

  /** Dropping `n/6` from each end of `n >= 1` samples leaves at least one. */
  lemma TrimCount(n: int)
    requires n >= 1
    ensures 0 <= n / 6 <= n - n / 6 && 1 <= n - 2 * (n / 6)
  {
  }

  /** A slice of a sorted sequence is sorted. */
  lemma SortedSlice(t: seq<int>, lo: int, hi: int)
    requires 0 <= lo <= hi <= |t|
    ensures Sorted(t) ==> Sorted(t[lo..hi])
  {
    if Sorted(t) {
      var a := t[lo..hi];
      forall i, j | 0 <= i < j < |a|
        ensures a[i] <= a[j]
      {
        assert a[i] == t[lo + i] && a[j] == t[lo + j];
      }
    }
  }

  /** A slice is drawn from the sequence it is cut from. */
  lemma SliceFrom(t: seq<int>, lo: int, hi: int)
    requires 0 <= lo <= hi <= |t|
    ensures multiset(t[lo..hi]) <= multiset(t)
  {
    assert t == t[..lo] + t[lo..hi] + t[hi..];
    assert multiset(t) == multiset(t[..lo]) + multiset(t[lo..hi]) + multiset(t[hi..]);
  }

  /** 24 times the mean of `a`, rounded half up by Go's truncating
      division: `(sum*24 + na/2) / na`. */
  function Mean24(a: seq<int>): (m: int)
    requires a != []
    ensures Sum(a) >= 0 ==> m >= 0
    ensures Sum(a) < 0 ==> m <= 0
  {
    MeanSign(Sum(a), |a|);
    TruncDiv(Sum(a) * 24 + |a| / 2, |a|)
  }

  /** The rounding of `Mean24` keeps the sign of the total: a negative
      total is at least 24 below zero, more than `n/2` can make up. */
  lemma MeanSign(sum: int, n: int)
    requires n >= 1
    ensures sum >= 0 ==> TruncDiv(sum * 24 + n / 2, n) >= 0
    ensures sum < 0 ==> TruncDiv(sum * 24 + n / 2, n) <= 0
  {
    var a := sum * 24 + n / 2;
    if a >= 0 {
      QuotientSign(a, n);
      if sum < 0 {
        assert a < n;
        TruncDivUnique(a, n, 0);
      }
    } else {
      QuotientSign(a, n);
    }
  }

  /** Dividing by a positive divisor keeps the dividend's sign. */
  lemma QuotientSign(a: int, n: int)
    requires n >= 1
    ensures a >= 0 ==> TruncDiv(a, n) >= 0
    ensures a < 0 ==> TruncDiv(a, n) <= 0
  {
    if a >= 0 {
      TruncDivFloor(a, n);
      var q := TruncDiv(a, n);
      if q < 0 {
        ProductNonPositive(q + 1, n);
      }
    } else {
      TruncDivFloor(-a, n);
      var q := TruncDiv(-a, n);
      if q < 0 {
        ProductNonPositive(q + 1, n);
      }
      assert TruncDiv(a, n) == -q;
    }
  }

  lemma ProductNonPositive(x: int, n: int)
    requires x <= 0 && n >= 1
    ensures x * n <= 0
  {
  }

  /** The dryout rate per 24 hours: `Mean24` of the trimmed sorted
      samples; 0 without samples. */
  function Dryout(samples: seq<int>): (r: int)
    ensures (forall i :: 0 <= i < |samples| ==> samples[i] >= 0) ==> r >= 0
  {
    if samples == [] then 0
    else
      DrawnNonNegative(Trim(Sort(samples)), samples);
      Mean24(Trim(Sort(samples)))
  }

  /** Elements drawn from non-negative samples sum to a non-negative total. */
  lemma DrawnNonNegative(a: seq<int>, t: seq<int>)
    requires multiset(a) <= multiset(t)
    ensures (forall i :: 0 <= i < |t| ==> t[i] >= 0) ==> Sum(a) >= 0
  {
    if forall i :: 0 <= i < |t| ==> t[i] >= 0 {
      forall i | 0 <= i < |a| ensures a[i] >= 0 {
        assert a[i] in multiset(t);
      }
      SumNonNegative(a);
    }
  }

  lemma {:induction false} SumNonNegative(s: seq<int>)
    requires forall i :: 0 <= i < |s| ==> s[i] >= 0
    ensures Sum(s) >= 0
  {
    if s != [] {
      SumNonNegative(s[..|s| - 1]);
    }
  }

  /** The summing loop of the trimmed-mean block. */
  method SumOf(a: seq<int>) returns (sum: int)
    ensures sum == Sum(a)
  {
    sum := 0;
    for i := 0 to |a|
      invariant sum == Sum(a[..i])
    {
      assert a[..i + 1][..i] == a[..i];
      sum := sum + a[i];
    }
    assert a[..|a|] == a;
  }

  /** The trimmed-mean block of `calculateDryoutAndWateringTime`: sort,
      then the trimmed mean of the sorted samples. */
  method TrimmedDryout(samples: seq<int>) returns (dryout: int)
    ensures dryout == Dryout(samples)
  {
    if |samples| > 0 {
      var d := Sort(samples);
      dryout := TrimmedMean(d);
    } else {
      dryout := 0;
    }
  }

  /** The rest of the trimmed-mean block: drop `n/6` samples at each end
      of the sorted `d`, sum, divide. */
  method TrimmedMean(d: seq<int>) returns (m: int)
    requires d != []
    ensures m == Mean24(Trim(d))
  {
    var n := |d|;
    var filterBounds := n / 6;
    TrimCount(n);
    var a := d[filterBounds..n - filterBounds];
    assert a == Trim(d);
    var na := |a|;
    var sum := SumOf(a);
    m := TruncDiv(sum * 24 + na / 2, na);
  }

  /** The dryout part of `calculateDryoutAndWateringTime`. */
  method CalculateDryout(weight: seq<int>, watering: seq<int>) returns (dryout: int)
    ensures dryout == Dryout(DrySamples(weight, watering, |watering|))
  {
    var dry, _ := ExtractSamples(weight, watering);
    dryout := TrimmedDryout(dry);
  }

  /** With a non-negative total, `Mean24` is 24 times the mean rounded
      half up: `m * na <= 24 * sum + na/2 < (m + 1) * na`. */
  lemma MeanRoundsHalfUp(a: seq<int>)
    requires a != [] && Sum(a) >= 0
    ensures Mean24(a) * |a| <= Sum(a) * 24 + |a| / 2 < (Mean24(a) + 1) * |a|
  {
    TruncDivFloor(Sum(a) * 24 + |a| / 2, |a|);
  }

  lemma {:induction false} SumConstant(s: seq<int>, c: int)
    requires forall i :: 0 <= i < |s| ==> s[i] == c
    ensures Sum(s) == c * |s|
  {
    if s != [] {
      SumConstant(s[..|s| - 1], c);
    }
  }

  /** Elements drawn from a sequence of `c`s are all `c`. */
  lemma DrawnConstant(a: seq<int>, t: seq<int>, c: int)
    requires multiset(a) <= multiset(t)
    requires forall i :: 0 <= i < |t| ==> t[i] == c
    ensures forall i :: 0 <= i < |a| ==> a[i] == c
  {
    forall i | 0 <= i < |a| ensures a[i] == c {
      assert a[i] in multiset(t);
    }
  }

  /** Samples that all show the same non-negative hourly loss `c` give the
      dryout `24 * c`, whatever their number. */
  lemma ConstantDryout(samples: seq<int>, c: int)
    requires samples != [] && c >= 0
    requires forall i :: 0 <= i < |samples| ==> samples[i] == c
    ensures Dryout(samples) == 24 * c
  {
    var t := Sort(samples);
    DrawnConstant(t, samples, c);
    var a := Trim(t);
    DrawnConstant(a, t, c);
    SumConstant(a, c);
    RoundedMean(Sum(a), c, |a|);
  }

  /** The rounding step of `Dryout` on an exact non-negative mean `c`. */
  lemma RoundedMean(sum: int, c: int, na: int)
    requires na >= 1 && c >= 0 && sum == c * na
    ensures TruncDiv(sum * 24 + na / 2, na) == 24 * c
  {
    ScaleBy24(sum, c, na);
    TruncDivUnique(sum * 24 + na / 2, na, 24 * c);
  }

  lemma ScaleBy24(s: int, c: int, n: int)
    requires s == c * n
    ensures s * 24 == (24 * c) * n
  {
  }

  /** Without any watering, hours whose weights fall by `c` per hour (and
      stay positive) give only samples equal to `c`, one per hour after
      the first. */
  lemma {:induction false} SteadyDrySamples(weight: seq<int>, watering: seq<int>, c: int, k: nat)
    requires |weight| == |watering| && k <= |watering|
    requires forall i :: 0 <= i < |watering| ==> watering[i] == 0
    requires forall i :: 0 <= i < |weight| ==> weight[i] > 0
    requires forall i :: 1 <= i < |weight| ==> weight[i - 1] - weight[i] == c
    ensures |DrySamples(weight, watering, k)| == if k == 0 then 0 else k - 1
    ensures forall x :: x in DrySamples(weight, watering, k) ==> x == c
  {
    if k > 0 {
      SteadyDrySamples(weight, watering, c, k - 1);
    }
  }

  /** The dryout scenario: weights dropping by a steady `c >= 0` per hour
      with no watering give the dryout `24 * c` (240 for 10 per hour). */
  lemma SteadyDryout(weight: seq<int>, watering: seq<int>, c: int)
    requires |weight| == |watering| >= 2 && c >= 0
    requires forall i :: 0 <= i < |watering| ==> watering[i] == 0
    requires forall i :: 0 <= i < |weight| ==> weight[i] > 0
    requires forall i :: 1 <= i < |weight| ==> weight[i - 1] - weight[i] == c
    ensures Dryout(DrySamples(weight, watering, |watering|)) == 24 * c
  {
    var s := DrySamples(weight, watering, |watering|);
    SteadyDrySamples(weight, watering, c, |watering|);
    forall i | 0 <= i < |s| ensures s[i] == c {
      assert s[i] in s;
    }
    ConstantDryout(s, c);
  }

  /** For a negative mean the rounding is toward zero, not half up: two
      samples of a steady one-unit gain give -23, not -24. */
  lemma NegativeMeanRounding()
    ensures Dryout([-1, -1]) == -23
  {
    var s := [-1, -1];
    assert Sort([-1]) == [-1] by {
      assert [-1][1..] == [];
    }
    assert s[1..] == [-1];
    assert Sort(s) == s;
    assert Trim(s) == s;
    assert Sum(s) == -2 by {
      assert s[..1] == [-1] && [-1][..0] == [];
    }
    assert Mean24(s) == TruncDiv(-47, 2) == -23;
  }
}
