/** Winsorized IOP: the mean after the smallest reading is replaced by the
    second smallest and the largest by the second largest. */
module WinsorizedIop {
  import opened Samples

  /** The sorted sample with position 0 overwritten by position 1 and the
      last position by the one before it. */
  function Winsorized(t: seq<real>): seq<real>
    requires |t| >= 3
  {
    [t[1]] + t[1..|t| - 1] + [t[|t| - 2]]
  }

  /** The value the estimator computes: the mean of the Winsorized sorted
      sample, or the plain mean for fewer than three readings. */
  function WinsorizedMean(measurements: seq<real>): real
    requires |measurements| > 0
  {
    if |measurements| < 3 then Mean(measurements)
    else Mean(Winsorized(Sort(measurements)))
  }

  /** Copies the sorted data and overwrites both ends of the copy with their
      neighbours; the sorted data itself is left alone. */
  method ReplaceExtremes(sortedData: array<real>) returns (winsorized: array<real>)
    requires sortedData.Length >= 3
    ensures fresh(winsorized)
    ensures winsorized.Length == sortedData.Length
    ensures winsorized[0] == sortedData[1]
    ensures winsorized[winsorized.Length - 1] == sortedData[sortedData.Length - 2]
    ensures forall i :: 0 < i < winsorized.Length - 1 ==> winsorized[i] == sortedData[i]
    ensures winsorized[..] == Winsorized(sortedData[..])
  {
    var n := sortedData.Length;
    winsorized := new real[n](i reads sortedData requires 0 <= i < n => sortedData[i]);
    winsorized[0] := sortedData[1];
    winsorized[n - 1] := sortedData[n - 2];
    assert winsorized[..] == [winsorized[0]] + winsorized[1..n - 1] + [winsorized[n - 1]];
    assert winsorized[1..n - 1] == sortedData[1..n - 1];
  }

  method CalculateWinsorizedIop(measurements: seq<real>) returns (r: real)
    requires |measurements| > 0
    ensures r == WinsorizedMean(measurements)
    ensures Min(measurements) <= r <= Max(measurements)
  {
    WinsorizedMeanWithin(measurements);
    if |measurements| < 3 {
      return Mean(measurements);
    }
    var sorted := Sort(measurements);
    var n := |sorted|;
    var sortedData := new real[n](i requires 0 <= i < n => sorted[i]);
    assert sortedData[..] == sorted;
    var winsorized := ReplaceExtremes(sortedData);
    r := Mean(winsorized[..]);
  }

  /** Each position of the Winsorized sample. */
  lemma WinsorizedAt(t: seq<real>, k: nat)
    requires |t| >= 3 && k < |t|
    ensures |Winsorized(t)| == |t|
    ensures Winsorized(t)[k] == if k == 0 then t[1] else if k == |t| - 1 then t[|t| - 2] else t[k]
  {
  }

  /** On a sorted sample every Winsorized value lies between the second
      smallest and the second largest value. */
  lemma WinsorizedWithin(t: seq<real>)
    requires |t| >= 3 && Sorted(t)
    ensures Within(Winsorized(t), t[1], t[|t| - 2])
  {
    var w := Winsorized(t);
    forall k | 0 <= k < |w| ensures t[1] <= w[k] <= t[|t| - 2] {
      WinsorizedAt(t, k);
    }
  }

  /** For n >= 3 the estimate lies between the second smallest and the
      second largest reading. */
  lemma WinsorizedMeanInner(s: seq<real>)
    requires |s| >= 3
    ensures Sort(s)[1] <= WinsorizedMean(s) <= Sort(s)[|s| - 2]
  {
    var t := Sort(s);
    WinsorizedWithin(t);
    MeanWithin(Winsorized(t), t[1], t[|t| - 2]);
  }

  /** The estimate lies within [min, max] for every non-empty sample. */
  lemma WinsorizedMeanWithin(s: seq<real>)
    requires |s| > 0
    ensures Min(s) <= WinsorizedMean(s) <= Max(s)
  {
    if |s| < 3 {
      MinMaxWithin(s);
      MeanWithin(s, Min(s), Max(s));
    } else {
      WinsorizedMeanInner(s);
      SortWithin(s);
    }
  }

  /** With one or two readings nothing is replaced: the estimate is their
      mean, the average of the first and the last reading. */
  lemma WinsorizedMeanOfFew(s: seq<real>)
    requires 0 < |s| < 3
    ensures WinsorizedMean(s) == (s[0] + s[|s| - 1]) / 2.0
  {
    MeanOfFew(s);
  }

  /** With three readings both ends become the middle value, so the
      estimate is the median. */
  lemma WinsorizedMeanOfThree(s: seq<real>)
    requires |s| == 3
    ensures WinsorizedMean(s) == Median(s)
  {
    var t := Sort(s);
    var x := t[1];
    var w := Winsorized(t);
    assert w == [x, x, x] by {
      WinsorizedAt(t, 0);
      WinsorizedAt(t, 1);
      WinsorizedAt(t, 2);
    }
    MeanOfTriple(x, x, x);
    MedianOfThree(s);
  }

  /** The estimate depends only on the multiset of readings. */
  lemma WinsorizedMeanPermutation(a: seq<real>, b: seq<real>)
    requires |a| > 0 && multiset(a) == multiset(b)
    ensures |b| == |a| && WinsorizedMean(a) == WinsorizedMean(b)
  {
    SortPermutation(a, b);
    MeanPermutation(a, b);
  }
}
