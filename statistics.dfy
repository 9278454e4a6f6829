/** The dispersion statistics reported beside the estimates: the range of
    the sample, its spread (max - min) and its Bessel-corrected variance. */
module Statistics {
  import opened Samples

  /** All readings are the same value. */
  predicate AllEqual(s: seq<real>) {
    forall i, j :: 0 <= i < |s| && 0 <= j < |s| ==> s[i] == s[j]
  }

  /** The smallest and the largest reading: both are readings, and every
      reading lies between them. */
  function GetRange(measurements: seq<real>): (r: (real, real))
    requires |measurements| > 0
    ensures r.0 in measurements && r.1 in measurements
    ensures r.0 <= r.1
    ensures Within(measurements, r.0, r.1)
  {
    MinMaxIn(measurements);
    (Min(measurements), Max(measurements))
  }

  /** The spread of the sample, max - min. */
  function GetVariability(measurements: seq<real>): (v: real)
    requires |measurements| > 0
    ensures v >= 0.0
  {
    Max(measurements) - Min(measurements)
  }

  /** The spread is zero exactly when all readings are equal. */
  lemma VariabilityZeroIffAllEqual(s: seq<real>)
    requires |s| > 0
    ensures GetVariability(s) == 0.0 <==> AllEqual(s)
  {
    if AllEqual(s) {
      MinMaxIn(s);
      assert Min(s) == Max(s);
    }
  }

  /** The spread is the width of the range. */
  lemma VariabilityIsRangeWidth(s: seq<real>)
    requires |s| > 0
    ensures GetVariability(s) == GetRange(s).1 - GetRange(s).0
  {
  }

  // ---------------------------------------------------------------------
  // Variance

  /** The squared deviation from a centre c. */
  function DeviationOf(c: real): real -> real {
    x => (x - c) * (x - c)
  }

  /** The sum of squared deviations of the readings from c. */
  function SquaredDeviations(s: seq<real>, c: real): real {
    SumOf(DeviationOf(c), s)
  }

  /** The sample variance with one degree of freedom removed (np.var with
      ddof=1), the square of the reported standard deviation. */
  function GetVariance(measurements: seq<real>): real
    requires |measurements| >= 2
  {
    SquaredDeviations(measurements, Mean(measurements)) / (|measurements| - 1) as real
  }

  /** The sample standard deviation (np.std with ddof=1): the square root,
      given as sqrt, of the variance. */
  function GetStandardDeviation(measurements: seq<real>, sqrt: real -> real): real
    requires |measurements| >= 2
  {
    sqrt(GetVariance(measurements))
  }

  lemma SquareNonNegative(d: real)
    ensures d * d >= 0.0
    ensures d * d == 0.0 <==> d == 0.0
  {
    if d < 0.0 {
      var e := -d;
      ScaleMonotone(0.0, e, e);
      assert d * d == e * e;
      assert d * d / d == d;
    } else if d > 0.0 {
      ScaleMonotone(0.0, d, d);
      assert d * d / d == d;
    }
  }

  /** A sum of squared deviations is non-negative, and it is zero exactly
      when every reading equals the centre. */
  lemma {:induction false} SquaredDeviationsZero(s: seq<real>, c: real)
    ensures SquaredDeviations(s, c) >= 0.0
    ensures SquaredDeviations(s, c) == 0.0 <==> forall i :: 0 <= i < |s| ==> s[i] == c
  {
    if s != [] {
      var rest := s[1..];
      SquaredDeviationsZero(rest, c);
      SquareNonNegative(s[0] - c);
      var d := DeviationOf(c)(s[0]);
      assert d == (s[0] - c) * (s[0] - c);
      assert SquaredDeviations(s, c) == d + SquaredDeviations(rest, c);
      assert (forall i :: 0 <= i < |s| ==> s[i] == c) <==>
        s[0] == c && forall i :: 0 <= i < |rest| ==> rest[i] == c
      by {
        if s[0] == c && forall i :: 0 <= i < |rest| ==> rest[i] == c {
          forall i | 0 < i < |s| ensures s[i] == c {
            assert s[i] == rest[i - 1];
          }
        }
        if forall i :: 0 <= i < |s| ==> s[i] == c {
          forall i | 0 <= i < |rest| ensures rest[i] == c {
            assert rest[i] == s[i + 1];
          }
        }
      }
    }
  }

  /** The variance is never negative. */
  lemma VarianceNonNegative(s: seq<real>)
    requires |s| >= 2
    ensures GetVariance(s) >= 0.0
  {
    SquaredDeviationsZero(s, Mean(s));
  }

  /** The variance is zero exactly when all readings are equal. */
  lemma VarianceZeroIffAllEqual(s: seq<real>)
    requires |s| >= 2
    ensures GetVariance(s) == 0.0 <==> AllEqual(s)
  {
    var c := Mean(s);
    var d := (|s| - 1) as real;
    SquaredDeviationsZero(s, c);
    assert GetVariance(s) * d == SquaredDeviations(s, c);
    if AllEqual(s) {
      assert Within(s, s[0], s[0]);
      MeanWithin(s, s[0], s[0]);
    }
  }

  /** sqrt is the non-negative square root on the non-negative reals. */
  ghost predicate IsSquareRoot(sqrt: real -> real) {
    forall x :: 0.0 <= x ==> 0.0 <= sqrt(x) && sqrt(x) * sqrt(x) == x
  }

  /** With a true square root, the standard deviation is non-negative, its
      square is the variance, and it is zero exactly when all readings are
      equal. */
  lemma StandardDeviationZeroIffAllEqual(s: seq<real>, sqrt: real -> real)
    requires |s| >= 2 && IsSquareRoot(sqrt)
    ensures GetStandardDeviation(s, sqrt) >= 0.0
    ensures GetStandardDeviation(s, sqrt) * GetStandardDeviation(s, sqrt) == GetVariance(s)
    ensures GetStandardDeviation(s, sqrt) == 0.0 <==> AllEqual(s)
  {
    VarianceNonNegative(s);
    VarianceZeroIffAllEqual(s);
    SquareNonNegative(GetStandardDeviation(s, sqrt));
  }

  // ---------------------------------------------------------------------
  // Order independence

  /** Range, spread and variance depend only on the multiset of readings. */
  lemma StatisticsPermutation(a: seq<real>, b: seq<real>)
    requires |a| > 0 && multiset(a) == multiset(b)
    ensures |b| == |a|
    ensures GetRange(a) == GetRange(b)
    ensures GetVariability(a) == GetVariability(b)
    ensures |a| >= 2 ==> GetVariance(a) == GetVariance(b)
    ensures |a| >= 2 ==> forall sqrt :: GetStandardDeviation(a, sqrt) == GetStandardDeviation(b, sqrt)
  {
    MinMaxPermutation(a, b);
    MeanPermutation(a, b);
    SumOfPermutation(DeviationOf(Mean(a)), a, b);
  }
}
