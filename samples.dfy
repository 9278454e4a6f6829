/** The order statistics and sums the estimators take from numpy
    (np.sort, np.sum, np.min, np.max, np.mean, np.median and np.percentile
    with its default linear interpolation), defined over exact reals.
    Every estimator of the system is built from these. */
module Samples {

  /** Ascending order, the order np.sort produces. */
  predicate Sorted(s: seq<real>) {
    forall i, j :: 0 <= i <= j < |s| ==> s[i] <= s[j]
  }

  /** Every value of s lies in the closed interval [lo, hi]. */
  predicate Within(s: seq<real>, lo: real, hi: real) {
    forall i :: 0 <= i < |s| ==> lo <= s[i] <= hi
  }

  // ---------------------------------------------------------------------
  // Sum, minimum, maximum, mean

  function Sum(s: seq<real>): real {
    if s == [] then 0.0 else s[0] + Sum(s[1..])
  }

  function Min(s: seq<real>): (m: real)
    requires |s| > 0
    ensures forall i :: 0 <= i < |s| ==> m <= s[i]
  {
    if |s| == 1 then s[0]
    else
      var rest := Min(s[1..]);
      if s[0] <= rest then s[0] else rest
  }

  function Max(s: seq<real>): (m: real)
    requires |s| > 0
    ensures forall i :: 0 <= i < |s| ==> s[i] <= m
  {
    if |s| == 1 then s[0]
    else
      var rest := Max(s[1..]);
      if s[0] >= rest then s[0] else rest
  }

  /** The minimum and the maximum are readings of the sample. */
  lemma {:induction false} MinMaxIn(s: seq<real>)
    requires |s| > 0
    ensures Min(s) in s && Max(s) in s
  {
    if |s| > 1 {
      MinMaxIn(s[1..]);
      assert forall x :: x in s[1..] ==> x in s;
    }
  }

  function Mean(s: seq<real>): real
    requires |s| > 0
  {
    Sum(s) / |s| as real
  }

  lemma {:induction false} SumConcat(a: seq<real>, b: seq<real>)
    ensures Sum(a + b) == Sum(a) + Sum(b)
  {
    if a != [] {
      assert (a + b)[0] == a[0];
      assert (a + b)[1..] == a[1..] + b;
      assert Sum(a + b) == a[0] + Sum(a[1..] + b);
      SumConcat(a[1..], b);
    } else {
      assert a + b == b;
    }
  }

  /** The sum of n values in [lo, hi] lies in [n*lo, n*hi]. */
  lemma {:induction false} SumWithin(s: seq<real>, lo: real, hi: real)
    requires Within(s, lo, hi)
    ensures |s| as real * lo <= Sum(s) <= |s| as real * hi
  {
    if s != [] {
      SumWithin(s[1..], lo, hi);
      assert |s| as real * lo == (|s| - 1) as real * lo + lo;
      assert |s| as real * hi == (|s| - 1) as real * hi + hi;
    }
  }

  /** Scaling by a non-negative factor keeps the order. */
  lemma ScaleMonotone(a: real, b: real, c: real)
    requires a <= b && 0.0 <= c
    ensures a * c <= b * c
  {
    assert b * c - a * c == (b - a) * c;
  }

  lemma MeanOfOne(x: real)
    ensures Mean([x]) == x
  {
    assert Sum([x]) == x + Sum([]);
  }

  /** A slice of a sample lies within any bounds of the sample. */
  lemma WithinSlice(s: seq<real>, lo: real, hi: real, i: nat, j: nat)
    requires Within(s, lo, hi) && i <= j <= |s|
    ensures Within(s[i..j], lo, hi)
  {
    forall k | 0 <= k < j - i ensures lo <= s[i..j][k] <= hi {
      assert s[i..j][k] == s[i + k];
    }
  }

  /** The sum is the first value, plus the sum of the interior, plus the last. */
  lemma SumEnds(t: seq<real>)
    requires |t| >= 2
    ensures Sum(t) == t[0] + Sum(t[1..|t| - 1]) + t[|t| - 1]
  {
    var n := |t|;
    var first, inner, last := [t[0]], t[1..n - 1], [t[n - 1]];
    assert t == first + inner + last;
    SumConcat(first + inner, last);
    SumConcat(first, inner);
    assert first[1..] == [] && last[1..] == [];
    assert Sum(first) == t[0];
    assert Sum(last) == t[n - 1];
  }

  lemma MinMaxWithin(s: seq<real>)
    requires |s| > 0
    ensures Within(s, Min(s), Max(s))
  {
  }

  /** The mean lies between the smallest and the largest value. */
  lemma MeanWithin(s: seq<real>, lo: real, hi: real)
    requires |s| > 0 && Within(s, lo, hi)
    ensures lo <= Mean(s) <= hi
  {
    SumWithin(s, lo, hi);
    MeanTimesCount(s);
  }

  lemma MeanTimesCount(s: seq<real>)
    requires |s| > 0
    ensures Mean(s) * |s| as real == Sum(s)
  {
  }

  /** The mean of one or two readings is the average of the first and the
      last. */
  lemma MeanOfFew(s: seq<real>)
    requires 0 < |s| < 3
    ensures Mean(s) == (s[0] + s[|s| - 1]) / 2.0
  {
    if |s| == 1 {
      assert s == [s[0]];
      MeanOfOne(s[0]);
    } else {
      assert s == [s[0], s[1]];
      MeanOfPair(s[0], s[1]);
    }
  }

  lemma MeanOfPair(a: real, b: real)
    ensures Mean([a, b]) == (a + b) / 2.0
  {
    assert [a, b][1..] == [b];
    assert Sum([b]) == b + Sum([]);
  }

  lemma MeanOfTriple(a: real, b: real, c: real)
    ensures Mean([a, b, c]) == (a + b + c) / 3.0
  {
    assert [a, b, c][1..] == [b, c];
    assert [b, c][1..] == [c];
    assert Sum([c]) == c + Sum([]);
    assert Sum([b, c]) == b + c;
  }

  // ---------------------------------------------------------------------
  // Sorting

  function Insert(x: real, t: seq<real>): (r: seq<real>)
    ensures |r| == |t| + 1
    ensures multiset(r) == multiset(t) + multiset{x}
  {
    if t == [] then [x]
    else if x <= t[0] then [x] + t
    else
      assert t == [t[0]] + t[1..];
      [t[0]] + Insert(x, t[1..])
  }

  lemma {:induction false} InsertSorted(x: real, t: seq<real>)
    requires Sorted(t)
    ensures Sorted(Insert(x, t))
  {
    if t == [] {
    } else if x <= t[0] {
      SortedCons(x, t);
    } else {
      var rest := Insert(x, t[1..]);
      SortedTail(t);
      InsertSorted(x, t[1..]);
      forall k | 0 <= k < |rest| ensures t[0] <= rest[k] {
        assert rest[k] in multiset(rest);
      }
      SortedCons(t[0], rest);
    }
  }

  /** Putting a value no larger than any other in front keeps the order. */
  lemma SortedCons(x: real, t: seq<real>)
    requires Sorted(t)
    requires forall k :: 0 <= k < |t| ==> x <= t[k]
    ensures Sorted([x] + t)
  {
    var r := [x] + t;
    forall i, j | 0 <= i <= j < |r| ensures r[i] <= r[j] {
      if i > 0 {
        assert r[i] == t[i - 1] && r[j] == t[j - 1];
      } else if j > 0 {
        assert r[j] == t[j - 1];
      }
    }
  }

  /** The ascending rearrangement of s (np.sort, Python's sorted). */
  function Sort(s: seq<real>): (r: seq<real>)
    ensures |r| == |s|
    ensures Sorted(r)
    ensures multiset(r) == multiset(s)
  {
    if s == [] then []
    else
      assert s == [s[0]] + s[1..];
      InsertSorted(s[0], Sort(s[1..]));
      Insert(s[0], Sort(s[1..]))
  }

  /** Two ascending sequences holding the same values are equal: the sorted
      order of a sample is determined by its multiset of values. */
  lemma {:induction false} SortedUnique(a: seq<real>, b: seq<real>)
    requires Sorted(a) && Sorted(b)
    requires multiset(a) == multiset(b)
    ensures a == b
  {
    assert |a| == |multiset(a)| == |multiset(b)| == |b|;
    if a != [] {
      assert a[0] in multiset(b);
      assert b[0] in multiset(a);
      assert a[0] == b[0];
      assert a == [a[0]] + a[1..];
      assert b == [b[0]] + b[1..];
      assert multiset(a) == multiset{a[0]} + multiset(a[1..]);
      assert multiset(b) == multiset{b[0]} + multiset(b[1..]);
      assert multiset(a[1..]) == multiset(a) - multiset{a[0]};
      assert multiset(b[1..]) == multiset(b) - multiset{b[0]};
      SortedTail(a);
      SortedTail(b);
      SortedUnique(a[1..], b[1..]);
    }
  }

  lemma SortedTail(t: seq<real>)
    requires Sorted(t) && t != []
    ensures Sorted(t[1..])
  {
    forall i, j | 0 <= i <= j < |t| - 1 ensures t[1..][i] <= t[1..][j] {
      assert t[1..][i] == t[i + 1] && t[1..][j] == t[j + 1];
    }
  }

  /** Rearranging a sample does not change its sorted order. */
  lemma SortPermutation(a: seq<real>, b: seq<real>)
    requires multiset(a) == multiset(b)
    ensures Sort(a) == Sort(b)
  {
    SortedUnique(Sort(a), Sort(b));
  }

  lemma {:induction false} SumInsert(x: real, t: seq<real>)
    ensures Sum(Insert(x, t)) == x + Sum(t)
  {
    if t != [] && x > t[0] {
      SumInsert(x, t[1..]);
    }
  }

  lemma {:induction false} SumSort(s: seq<real>)
    ensures Sum(Sort(s)) == Sum(s)
  {
    if s != [] {
      SumSort(s[1..]);
      SumInsert(s[0], Sort(s[1..]));
    }
  }

  /** np.sum does not depend on the order of the values. */
  lemma SumPermutation(a: seq<real>, b: seq<real>)
    requires multiset(a) == multiset(b)
    ensures Sum(a) == Sum(b)
  {
    SumSort(a);
    SumSort(b);
    SortPermutation(a, b);
  }

  /** np.min and np.max do not depend on the order of the values. */
  lemma MinMaxPermutation(a: seq<real>, b: seq<real>)
    requires |a| > 0 && multiset(a) == multiset(b)
    ensures |b| == |a|
    ensures Min(a) == Min(b) && Max(a) == Max(b)
  {
    assert |a| == |multiset(a)| == |multiset(b)| == |b|;
    MinMaxIn(a);
    MinMaxIn(b);
    assert Min(a) in multiset(b) && Min(b) in multiset(a);
    assert Max(a) in multiset(b) && Max(b) in multiset(a);
  }

  /** On a sorted sample the minimum is the first value, the maximum the last. */
  lemma MinMaxSorted(t: seq<real>)
    requires |t| > 0 && Sorted(t)
    ensures Min(t) == t[0] && Max(t) == t[|t| - 1]
  {
  }

  /** The sorted order starts at np.min and ends at np.max. */
  lemma SortEnds(s: seq<real>)
    requires |s| > 0
    ensures Sort(s)[0] == Min(s) && Sort(s)[|s| - 1] == Max(s)
  {
    MinMaxPermutation(s, Sort(s));
    MinMaxSorted(Sort(s));
  }

  lemma SortWithin(s: seq<real>)
    requires |s| > 0
    ensures Within(Sort(s), Min(s), Max(s))
  {
    SortEnds(s);
  }

  lemma MeanPermutation(a: seq<real>, b: seq<real>)
    requires |a| > 0 && multiset(a) == multiset(b)
    ensures |b| == |a| && Mean(a) == Mean(b)
  {
    assert |a| == |multiset(a)| == |multiset(b)| == |b|;
    SumPermutation(a, b);
  }

  // ---------------------------------------------------------------------
  // Elementwise sums

  /** The sum of f over the readings, an elementwise np.sum. */
  function SumOf(f: real -> real, s: seq<real>): real {
    if s == [] then 0.0 else f(s[0]) + SumOf(f, s[1..])
  }

  lemma {:induction false} SumOfPositive(f: real -> real, s: seq<real>)
    requires forall x :: f(x) > 0.0
    ensures s != [] ==> SumOf(f, s) > 0.0
    ensures SumOf(f, s) >= 0.0
  {
    if s != [] {
      SumOfPositive(f, s[1..]);
    }
  }

  lemma {:induction false} SumOfInsert(f: real -> real, x: real, t: seq<real>)
    ensures SumOf(f, Insert(x, t)) == f(x) + SumOf(f, t)
  {
    if t != [] && x > t[0] {
      SumOfInsert(f, x, t[1..]);
    }
  }

  /** An elementwise sum does not depend on the order of the readings. */
  lemma {:induction false} SumOfSort(f: real -> real, s: seq<real>)
    ensures SumOf(f, Sort(s)) == SumOf(f, s)
  {
    if s != [] {
      SumOfSort(f, s[1..]);
      SumOfInsert(f, s[0], Sort(s[1..]));
    }
  }

  lemma SumOfPermutation(f: real -> real, a: seq<real>, b: seq<real>)
    requires multiset(a) == multiset(b)
    ensures SumOf(f, a) == SumOf(f, b)
  {
    SumOfSort(f, a);
    SumOfSort(f, b);
    SortPermutation(a, b);
  }

  // ---------------------------------------------------------------------
  // Median and percentiles

  /** np.median: the middle value of the sorted sample for odd n, the mean
      of the two middle values for even n. */
  function Median(s: seq<real>): real
    requires |s| > 0
  {
    Middle(Sort(s))
  }

  /** The middle of a sorted sample: its middle value for odd length, the
      mean of its two middle values for even length. */
  function Middle(t: seq<real>): real
    requires |t| > 0
  {
    var k := |t| / 2;
    if |t| % 2 == 1 then t[k] else (t[k - 1] + t[k]) / 2.0
  }

  /** np.percentile(s, p) with the default linear method: the sorted sample
      is interpolated at the fractional position (n-1)*p/100. */
  function Percentile(s: seq<real>, p: real): real
    requires |s| > 0 && 0.0 <= p <= 100.0
  {
    Interpolate(Sort(s), Position(|s|, p))
  }

  /** The fractional rank (n-1)*p/100 that Percentile interpolates at. */
  function Position(n: nat, p: real): (h: real)
    requires n > 0 && 0.0 <= p <= 100.0
    ensures 0.0 <= h <= (n - 1) as real
  {
    assert (n - 1) as real * p <= (n - 1) as real * 100.0;
    (n - 1) as real * p / 100.0
  }

  /** Linear interpolation between the order statistics at floor(h) and
      floor(h)+1; at the last position there is no upper neighbour and the
      last value is returned. */
  function Interpolate(t: seq<real>, h: real): real
    requires 0.0 <= h <= (|t| - 1) as real
  {
    var lo := h.Floor;
    if lo + 1 < |t| then t[lo] + (h - lo as real) * (t[lo + 1] - t[lo]) else t[lo]
  }

  lemma PositionMonotone(n: nat, p: real, q: real)
    requires n > 0 && 0.0 <= p <= q <= 100.0
    ensures Position(n, p) <= Position(n, q)
  {
    var m := (n - 1) as real;
    ScaleMonotone(p, q, m);
    PercentMonotone(m * p, m * q);
  }

  lemma PercentMonotone(x: real, y: real)
    requires x <= y
    ensures x / 100.0 <= y / 100.0
  {
  }

  /** The interpolated value lies between the two order statistics it
      interpolates. */
  lemma InterpolateBracket(t: seq<real>, h: real)
    requires Sorted(t) && 0.0 <= h <= (|t| - 1) as real
    ensures var lo := h.Floor;
      0 <= lo < |t| &&
      t[lo] <= Interpolate(t, h) <= t[if lo + 1 < |t| then lo + 1 else lo]
  {
    var lo := h.Floor;
    if lo + 1 < |t| {
      var g := h - lo as real;
      var d := t[lo + 1] - t[lo];
      assert t[lo] <= t[lo + 1];
      ScaleMonotone(0.0, g, d);
      ScaleMonotone(g, 1.0, d);
      assert Interpolate(t, h) == t[lo] + g * d;
    }
  }

  lemma InterpolateWithin(t: seq<real>, h: real)
    requires Sorted(t) && 0.0 <= h <= (|t| - 1) as real
    ensures t[0] <= Interpolate(t, h) <= t[|t| - 1]
  {
    InterpolateBracket(t, h);
  }

  /** Interpolating further along a sorted sample never gives less. */
  lemma InterpolateMonotone(t: seq<real>, h1: real, h2: real)
    requires Sorted(t) && 0.0 <= h1 <= h2 <= (|t| - 1) as real
    ensures Interpolate(t, h1) <= Interpolate(t, h2)
  {
    InterpolateBracket(t, h1);
    InterpolateBracket(t, h2);
    var l1, l2 := h1.Floor, h2.Floor;
    assert l1 <= l2;
    if l1 < l2 {
      assert t[l1 + 1] <= t[l2];
    } else if l1 + 1 < |t| {
      var d := t[l1 + 1] - t[l1];
      var g1, g2 := h1 - l1 as real, h2 - l1 as real;
      ScaleMonotone(g1, g2, d);
      assert Interpolate(t, h1) == t[l1] + (h1 - l1 as real) * d;
      assert Interpolate(t, h2) == t[l1] + (h2 - l1 as real) * d;
    }
  }

  /** At a whole-number position the interpolation is that order statistic. */
  lemma InterpolateAtRank(t: seq<real>, k: nat)
    requires k < |t|
    ensures Interpolate(t, k as real) == t[k]
  {
    assert (k as real).Floor == k;
  }

  /** Halfway between two ranks the interpolation is their average. */
  lemma InterpolateHalfway(t: seq<real>, k: nat)
    requires k + 1 < |t|
    ensures Interpolate(t, k as real + 0.5) == (t[k] + t[k + 1]) / 2.0
  {
    assert (k as real + 0.5).Floor == k;
  }

  /** Every percentile lies within [min, max]. */
  lemma PercentileWithin(s: seq<real>, p: real)
    requires |s| > 0 && 0.0 <= p <= 100.0
    ensures Min(s) <= Percentile(s, p) <= Max(s)
  {
    InterpolateWithin(Sort(s), Position(|s|, p));
    SortEnds(s);
  }

  /** A larger percentage never gives a smaller percentile. */
  lemma PercentileMonotone(s: seq<real>, p: real, q: real)
    requires |s| > 0 && 0.0 <= p <= q <= 100.0
    ensures Percentile(s, p) <= Percentile(s, q)
  {
    PositionMonotone(|s|, p, q);
    InterpolateMonotone(Sort(s), Position(|s|, p), Position(|s|, q));
  }

  /** np.median is the 50th percentile under the linear rule. */
  lemma MedianIsPercentile50(s: seq<real>)
    requires |s| > 0
    ensures Median(s) == Percentile(s, 50.0)
  {
    var t := Sort(s);
    var n := |t|;
    var k := n / 2;
    assert Position(n, 50.0) == (n - 1) as real / 2.0;
    if n % 2 == 1 {
      assert (n - 1) as real / 2.0 == k as real;
      InterpolateAtRank(t, k);
    } else {
      assert (n - 1) as real / 2.0 == (k - 1) as real + 0.5;
      InterpolateHalfway(t, k - 1);
    }
  }

  lemma MedianWithin(s: seq<real>)
    requires |s| > 0
    ensures Min(s) <= Median(s) <= Max(s)
  {
    MedianIsPercentile50(s);
    PercentileWithin(s, 50.0);
  }

  lemma MedianOfThree(s: seq<real>)
    requires |s| == 3
    ensures Median(s) == Sort(s)[1]
  {
    var t := Sort(s);
    assert |t| == 3;
    MiddleOfThree(t);
  }

  lemma MiddleOfThree(t: seq<real>)
    requires |t| == 3
    ensures Middle(t) == t[1]
  {
  }

  /** At least half of the sorted sample lies at or below the median and at
      least half at or above it. */
  lemma MedianSplits(s: seq<real>)
    requires |s| > 0
    ensures var t := Sort(s); var m := Median(s);
      (forall i :: 0 <= i < (|t| + 1) / 2 ==> t[i] <= m) &&
      (forall i :: |t| / 2 <= i < |t| ==> m <= t[i])
  {
  }

  lemma MedianPermutation(a: seq<real>, b: seq<real>)
    requires |a| > 0 && multiset(a) == multiset(b)
    ensures |b| == |a| && Median(a) == Median(b)
  {
    SortPermutation(a, b);
  }

  lemma PercentilePermutation(a: seq<real>, b: seq<real>, p: real)
    requires |a| > 0 && multiset(a) == multiset(b) && 0.0 <= p <= 100.0
    ensures |b| == |a| && Percentile(a, p) == Percentile(b, p)
  {
    SortPermutation(a, b);
  }
}
