/** Trimean IOP: Tukey's trimean (Q1 + 2*median + Q3) / 4, with the
    quartiles taken by linear interpolation. */
module TrimeanIop {
  import opened Samples

  function CalculateTrimeanIop(measurements: seq<real>): real
    requires |measurements| > 0
  {
    var q1 := Percentile(measurements, 25.0);
    var median := Median(measurements);
    var q3 := Percentile(measurements, 75.0);
    (q1 + 2.0 * median + q3) / 4.0
  }

  /** The quartiles are read at positions (n-1)/4 and 3(n-1)/4 of the
      sorted sample. */
  lemma QuartilePositions(n: nat)
    requires n > 0
    ensures Position(n, 25.0) == (n - 1) as real / 4.0
    ensures Position(n, 75.0) == 3.0 * (n - 1) as real / 4.0
  {
  }

  /** The first quartile never exceeds the median, nor the median the
      third quartile. */
  lemma QuartilesOrdered(s: seq<real>)
    requires |s| > 0
    ensures Percentile(s, 25.0) <= Median(s) <= Percentile(s, 75.0)
  {
    MedianIsPercentile50(s);
    PercentileMonotone(s, 25.0, 50.0);
    PercentileMonotone(s, 50.0, 75.0);
  }

  /** The trimean lies between the quartiles, hence within [min, max]. */
  lemma TrimeanIopWithin(s: seq<real>)
    requires |s| > 0
    ensures Percentile(s, 25.0) <= CalculateTrimeanIop(s) <= Percentile(s, 75.0)
    ensures Min(s) <= CalculateTrimeanIop(s) <= Max(s)
  {
    QuartilesOrdered(s);
    PercentileWithin(s, 25.0);
    PercentileWithin(s, 75.0);
  }

  /** The estimate depends only on the multiset of readings. */
  lemma TrimeanIopPermutation(a: seq<real>, b: seq<real>)
    requires |a| > 0 && multiset(a) == multiset(b)
    ensures |b| == |a| && CalculateTrimeanIop(a) == CalculateTrimeanIop(b)
  {
    SortPermutation(a, b);
  }
}
