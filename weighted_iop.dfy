/** Weighted IOP: the mean of the readings weighted by their closeness to
    the median, so that outliers count less without being dropped. */
module WeightedIop {
  import opened Samples

  function Abs(x: real): (a: real)
    ensures 0.0 <= a && (a == x || a == -x)
  {
    if x < 0.0 then -x else x
  }

  /** The weight of reading x against the median m: 1 / (1 + |x - m|). It
      lies in (0, 1] and is exactly 1 for the readings equal to the median. */
  function Weight(x: real, m: real): (w: real)
    ensures 0.0 < w <= 1.0
    ensures w == 1.0 <==> x == m
  {
    var d := Abs(x - m);
    assert (1.0 + d) * (1.0 / (1.0 + d)) == 1.0;
    1.0 / (1.0 + d)
  }

  /** The weight function of a sample whose median is m. */
  function WeightOf(m: real): real -> real {
    x => Weight(x, m)
  }

  /** The weighted-reading function of a sample whose median is m. */
  function WeightedOf(m: real): real -> real {
    x => Weight(x, m) * x
  }

  /** The sum of the weights (np.sum(weights)); positive for a non-empty
      sample. */
  function WeightSum(s: seq<real>, m: real): (r: real)
    ensures s != [] ==> r > 0.0
  {
    SumOfPositive(WeightOf(m), s);
    SumOf(WeightOf(m), s)
  }

  /** The sum of the weighted readings (np.sum(weights * measurements)). */
  function WeightedSum(s: seq<real>, m: real): real {
    SumOf(WeightedOf(m), s)
  }

  /** The weighted mean, with weights taken against the median of the whole
      sample, computed once. */
  function CalculateWeightedIop(measurements: seq<real>): real
    requires |measurements| > 0
  {
    var median := Median(measurements);
    WeightedSum(measurements, median) / WeightSum(measurements, median)
  }

  // ---------------------------------------------------------------------
  // Bounds

  /** Readings at least lo, weighted by positive weights w, give a weighted
      sum at least lo times the weight sum. */
  lemma {:induction false} SumOfAbove(w: real -> real, g: real -> real, s: seq<real>, lo: real)
    requires forall x :: w(x) > 0.0 && g(x) == w(x) * x
    requires forall i :: 0 <= i < |s| ==> lo <= s[i]
    ensures lo * SumOf(w, s) <= SumOf(g, s)
  {
    if s != [] {
      var x, rest := s[0], s[1..];
      SumOfAbove(w, g, rest, lo);
      ScaleMonotone(lo, x, w(x));
      assert g(x) == x * w(x);
      Distribute(lo, w(x), SumOf(w, rest));
    }
  }

  /** Readings at most hi, weighted by positive weights w, give a weighted
      sum at most hi times the weight sum. */
  lemma {:induction false} SumOfBelow(w: real -> real, g: real -> real, s: seq<real>, hi: real)
    requires forall x :: w(x) > 0.0 && g(x) == w(x) * x
    requires forall i :: 0 <= i < |s| ==> s[i] <= hi
    ensures SumOf(g, s) <= hi * SumOf(w, s)
  {
    if s != [] {
      var x, rest := s[0], s[1..];
      SumOfBelow(w, g, rest, hi);
      ScaleMonotone(x, hi, w(x));
      assert g(x) == x * w(x);
      Distribute(hi, w(x), SumOf(w, rest));
    }
  }

  lemma Distribute(c: real, a: real, b: real)
    ensures c * (a + b) == c * a + c * b
  {
  }

  /** Dividing bounds a*d <= x <= b*d by a positive d. */
  lemma DivideBounds(x: real, d: real, a: real, b: real)
    requires d > 0.0 && a * d <= x <= b * d
    ensures a <= x / d <= b
  {
    assert x / d * d == x;
    if x / d < a {
      ScaleMonotone(x / d, a, d);
    }
    if x / d > b {
      ScaleMonotone(b, x / d, d);
    }
  }

  /** The weights against m are positive, and each weighted reading is the
      reading times its weight. */
  lemma WeightsPositive(m: real)
    ensures forall x :: WeightOf(m)(x) > 0.0 && WeightedOf(m)(x) == WeightOf(m)(x) * x
  {
  }

  /** Weighting readings in [lo, hi] against any centre m gives a value in
      [lo, hi]. */
  lemma WeightedMeanBetween(s: seq<real>, m: real, lo: real, hi: real)
    requires |s| > 0 && Within(s, lo, hi)
    ensures lo <= WeightedSum(s, m) / WeightSum(s, m) <= hi
  {
    WeightsPositive(m);
    SumOfRatioBetween(WeightOf(m), WeightedOf(m), s, lo, hi);
  }

  /** The ratio of the weighted sum to the weight sum, for any positive
      weights, lies within the bounds of the readings. */
  lemma SumOfRatioBetween(w: real -> real, g: real -> real, s: seq<real>, lo: real, hi: real)
    requires forall x :: w(x) > 0.0 && g(x) == w(x) * x
    requires |s| > 0 && Within(s, lo, hi)
    ensures SumOf(w, s) > 0.0
    ensures lo <= SumOf(g, s) / SumOf(w, s) <= hi
  {
    SumOfPositive(w, s);
    SumOfAbove(w, g, s, lo);
    SumOfBelow(w, g, s, hi);
    DivideBounds(SumOf(g, s), SumOf(w, s), lo, hi);
  }

  /** The weighted mean of readings within [lo, hi] lies within [lo, hi]. */
  lemma WeightedIopBetween(s: seq<real>, lo: real, hi: real)
    requires |s| > 0 && Within(s, lo, hi)
    ensures lo <= CalculateWeightedIop(s) <= hi
  {
    WeightedMeanBetween(s, Median(s), lo, hi);
  }

  /** min <= result <= max. */
  lemma WeightedIopWithin(s: seq<real>)
    requires |s| > 0
    ensures Min(s) <= CalculateWeightedIop(s) <= Max(s)
  {
    MinMaxWithin(s);
    WeightedIopBetween(s, Min(s), Max(s));
  }

  /** A sample repeating one value v has weighted mean v. */
  lemma WeightedIopConstant(s: seq<real>, v: real)
    requires |s| > 0 && Within(s, v, v)
    ensures CalculateWeightedIop(s) == v
  {
    WeightedIopBetween(s, v, v);
  }

  // ---------------------------------------------------------------------
  // Order independence

  /** The weighted mean depends only on the multiset of readings. */
  lemma WeightedIopPermutation(a: seq<real>, b: seq<real>)
    requires |a| > 0 && multiset(a) == multiset(b)
    ensures |b| == |a| && CalculateWeightedIop(a) == CalculateWeightedIop(b)
  {
    MedianPermutation(a, b);
    var m := Median(a);
    SumOfPermutation(WeightOf(m), a, b);
    SumOfPermutation(WeightedOf(m), a, b);
  }
}
