/** Clinical IOP: the midpoint of the observed range. */
module ClinicalIop {
  import opened Samples

  function CalculateClinicalIop(measurements: seq<real>): real
    requires |measurements| > 0
  {
    (Min(measurements) + Max(measurements)) / 2.0
  }

  /** The midpoint is equidistant from min and max, so it lies within
      [min, max] and is min plus half the spread. */
  lemma ClinicalIopIsMidrange(s: seq<real>)
    requires |s| > 0
    ensures Min(s) <= CalculateClinicalIop(s) <= Max(s)
    ensures CalculateClinicalIop(s) - Min(s) == Max(s) - CalculateClinicalIop(s)
    ensures CalculateClinicalIop(s) == Min(s) + (Max(s) - Min(s)) / 2.0
  {
    assert Min(s) <= s[0] <= Max(s);
  }

  /** The estimate depends only on the multiset of readings. */
  lemma ClinicalIopPermutation(a: seq<real>, b: seq<real>)
    requires |a| > 0 && multiset(a) == multiset(b)
    ensures |b| == |a| && CalculateClinicalIop(a) == CalculateClinicalIop(b)
  {
    MinMaxPermutation(a, b);
  }
}
