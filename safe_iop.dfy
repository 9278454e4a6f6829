/** Safe IOP, the primary estimate: the trimmed mean that drops one
    occurrence of the minimum and one of the maximum. */
module SafeIop {
  import opened Samples

  /** (sum - min - max) / (n - 2) for three or more readings; the plain mean
      for fewer. For n >= 3 the divisor is at least 1. */
  function CalculateSafeIop(measurements: seq<real>): real
    requires |measurements| > 0
  {
    var n := |measurements|;
    if n < 3 then Mean(measurements)
    else (Sum(measurements) - Min(measurements) - Max(measurements)) / (n - 2) as real
  }

  /** For n >= 3 the estimate is the mean of the sorted sample without its
      first and last position: exactly one minimum and one maximum are
      dropped, however many readings tie with them. */
  lemma SafeIopIsInteriorMean(s: seq<real>)
    requires |s| >= 3
    ensures CalculateSafeIop(s) == Mean(Sort(s)[1..|s| - 1])
  {
    InteriorSum(s);
    InteriorMean(s, Sort(s)[1..|s| - 1]);
  }

  /** A sequence of n - 2 values summing to sum - min - max has the
      estimate as its mean. */
  lemma InteriorMean(s: seq<real>, inner: seq<real>)
    requires |s| >= 3 && |inner| == |s| - 2
    requires Sum(inner) == Sum(s) - Min(s) - Max(s)
    ensures CalculateSafeIop(s) == Mean(inner)
  {
  }

  /** Dropping one minimum and one maximum from the sum leaves the sum of
      the sorted sample's interior. */
  lemma InteriorSum(s: seq<real>)
    requires |s| >= 3
    ensures Sum(s) - Min(s) - Max(s) == Sum(Sort(s)[1..|s| - 1])
  {
    var t := Sort(s);
    SumSort(s);
    SortEnds(s);
    SumEnds(t);
    assert Sum(t) == t[0] + Sum(t[1..|t| - 1]) + t[|t| - 1];
    assert t[0] == Min(s) && t[|t| - 1] == Max(s) && Sum(t) == Sum(s);
  }

  /** The estimate lies within [min, max] for every non-empty sample. */
  lemma SafeIopWithin(s: seq<real>)
    requires |s| > 0
    ensures Min(s) <= CalculateSafeIop(s) <= Max(s)
  {
    if |s| < 3 {
      MinMaxWithin(s);
      MeanWithin(s, Min(s), Max(s));
    } else {
      SafeIopIsInteriorMean(s);
      SortWithin(s);
      WithinSlice(Sort(s), Min(s), Max(s), 1, |s| - 1);
      MeanWithin(Sort(s)[1..|s| - 1], Min(s), Max(s));
    }
  }

  /** With one or two readings nothing is trimmed: the estimate is their
      mean, the average of the first and the last reading. */
  lemma SafeIopOfFew(s: seq<real>)
    requires 0 < |s| < 3
    ensures CalculateSafeIop(s) == (s[0] + s[|s| - 1]) / 2.0
  {
    MeanOfFew(s);
  }

  /** With three readings the estimate is the middle one. */
  lemma SafeIopOfThree(s: seq<real>)
    requires |s| == 3
    ensures CalculateSafeIop(s) == Sort(s)[1]
  {
    SafeIopIsInteriorMean(s);
    var t := Sort(s);
    assert t[1..2] == [t[1]];
    MeanOfOne(t[1]);
  }

  /** The estimate depends only on the multiset of readings. */
  lemma SafeIopPermutation(a: seq<real>, b: seq<real>)
    requires |a| > 0 && multiset(a) == multiset(b)
    ensures |b| == |a| && CalculateSafeIop(a) == CalculateSafeIop(b)
  {
    SumPermutation(a, b);
    MinMaxPermutation(a, b);
    if |a| < 3 {
      MeanPermutation(a, b);
    }
  }
}
