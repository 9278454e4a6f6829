/** IQM IOP: the interquartile mean, the mean of the sorted slice between
    floor(n/4) (inclusive) and ceil(3n/4) (exclusive). */
module IqmIop {
  import opened Samples

  /** floor(n/4) */
  function LowerIndex(n: nat): nat {
    n / 4
  }

  /** ceil(3n/4) */
  function UpperIndex(n: nat): nat {
    (3 * n + 3) / 4
  }

  /** The mean of the middle slice; the mean of the whole sample should that
      slice be empty. */
  function CalculateIqmIop(measurements: seq<real>): real
    requires |measurements| > 0
  {
    var sortedData := Sort(measurements);
    var n := |sortedData|;
    var lowerIdx := LowerIndex(n);
    var upperIdx := UpperIndex(n);
    var iqrData := sortedData[lowerIdx..upperIdx];
    if |iqrData| == 0 then Mean(measurements) else Mean(iqrData)
  }

  /** The two indices are floor(n/4) and ceil(3n/4), and for every
      non-empty sample they delimit a non-empty slice. */
  lemma IqmIndices(n: nat)
    ensures LowerIndex(n) * 4 <= n < LowerIndex(n) * 4 + 4
    ensures UpperIndex(n) * 4 - 4 < 3 * n <= UpperIndex(n) * 4
    ensures LowerIndex(n) <= UpperIndex(n) <= n
    ensures n >= 1 ==> LowerIndex(n) < UpperIndex(n)
  {
  }

  /** The empty-slice fallback is never taken: the estimate is always the
      mean of the middle slice. */
  lemma IqmIopIsSliceMean(s: seq<real>)
    requires |s| > 0
    ensures var n := |s|;
      LowerIndex(n) < UpperIndex(n) &&
      CalculateIqmIop(s) == Mean(Sort(s)[LowerIndex(n)..UpperIndex(n)])
  {
    IqmIndices(|s|);
  }

  lemma IqmIopWithin(s: seq<real>)
    requires |s| > 0
    ensures Min(s) <= CalculateIqmIop(s) <= Max(s)
  {
    var n := |s|;
    IqmIopIsSliceMean(s);
    IqmSliceWithin(s);
    MeanWithin(Sort(s)[LowerIndex(n)..UpperIndex(n)], Min(s), Max(s));
  }

  lemma IqmSliceWithin(s: seq<real>)
    requires |s| > 0
    ensures LowerIndex(|s|) <= UpperIndex(|s|) <= |s|
    ensures Within(Sort(s)[LowerIndex(|s|)..UpperIndex(|s|)], Min(s), Max(s))
  {
    IqmIndices(|s|);
    SortWithin(s);
    WithinSlice(Sort(s), Min(s), Max(s), LowerIndex(|s|), UpperIndex(|s|));
  }

  /** With three readings the slice is the whole sample. */
  lemma IqmIopOfThree(s: seq<real>)
    requires |s| == 3
    ensures CalculateIqmIop(s) == Mean(s)
  {
    IqmIopIsSliceMean(s);
    assert Sort(s)[0..3] == Sort(s);
    MeanPermutation(Sort(s), s);
  }

  /** With four readings the slice is the two middle sorted values. */
  lemma IqmIopOfFour(s: seq<real>)
    requires |s| == 4
    ensures CalculateIqmIop(s) == (Sort(s)[1] + Sort(s)[2]) / 2.0
  {
    IqmIopIsSliceMean(s);
    var t := Sort(s);
    assert LowerIndex(4) == 1 && UpperIndex(4) == 3;
    assert CalculateIqmIop(s) == Mean(t[1..3]);
    assert t[1..3] == [t[1], t[2]];
    MeanOfPair(t[1], t[2]);
  }

  /** The estimate depends only on the multiset of readings. */
  lemma IqmIopPermutation(a: seq<real>, b: seq<real>)
    requires |a| > 0 && multiset(a) == multiset(b)
    ensures |b| == |a| && CalculateIqmIop(a) == CalculateIqmIop(b)
  {
    SortPermutation(a, b);
    IqmIopIsSliceMean(a);
    IqmIopIsSliceMean(b);
  }
}
