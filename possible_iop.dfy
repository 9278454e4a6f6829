/** Possible IOP: the median of the readings. */
module PossibleIop {
  import opened Samples

  function CalculatePossibleIop(measurements: seq<real>): real
    requires |measurements| > 0
  {
    Median(measurements)
  }

  /** The median lies within [min, max], at least half of the sorted
      readings lie at or below it and at least half at or above it. */
  lemma PossibleIopIsMedian(s: seq<real>)
    requires |s| > 0
    ensures Min(s) <= CalculatePossibleIop(s) <= Max(s)
    ensures var t := Sort(s); var m := CalculatePossibleIop(s);
      (forall i :: 0 <= i < (|t| + 1) / 2 ==> t[i] <= m) &&
      (forall i :: |t| / 2 <= i < |t| ==> m <= t[i])
  {
    MedianWithin(s);
    MedianSplits(s);
  }

  /** The estimate depends only on the multiset of readings. */
  lemma PossibleIopPermutation(a: seq<real>, b: seq<real>)
    requires |a| > 0 && multiset(a) == multiset(b)
    ensures |b| == |a| && CalculatePossibleIop(a) == CalculatePossibleIop(b)
  {
    MedianPermutation(a, b);
  }
}
