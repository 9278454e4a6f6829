/** Mean IOP: the unweighted arithmetic mean. */
module MeanIop {
  import opened Samples

  function CalculateMeanIop(measurements: seq<real>): real
    requires |measurements| > 0
  {
    Mean(measurements)
  }

  /** n times the estimate is the sum of the readings. */
  lemma MeanIopTimesCount(s: seq<real>)
    requires |s| > 0
    ensures CalculateMeanIop(s) * |s| as real == Sum(s)
  {
    MeanTimesCount(s);
  }

  /** The estimate lies within [min, max]. */
  lemma MeanIopWithin(s: seq<real>)
    requires |s| > 0
    ensures Min(s) <= CalculateMeanIop(s) <= Max(s)
  {
    MinMaxWithin(s);
    MeanWithin(s, Min(s), Max(s));
  }

  /** The estimate depends only on the multiset of readings. */
  lemma MeanIopPermutation(a: seq<real>, b: seq<real>)
    requires |a| > 0 && multiset(a) == multiset(b)
    ensures |b| == |a| && CalculateMeanIop(a) == CalculateMeanIop(b)
  {
    MeanPermutation(a, b);
  }
}
