/** The calculator that bundles every estimate of one validated sample. It
    keeps the readings sorted once, at construction, and hands that sorted
    copy to each estimator; every result is nevertheless the estimator's
    value on the readings as given, in any order. */
module Calculator {
  import opened Wrappers
  import opened Samples
  import Config
  import SafeIop
  import PossibleIop
  import ClinicalIop
  import MeanIop
  import TrimeanIop
  import IqmIop
  import WinsorizedIop
  import WeightedIop
  import Statistics
  import Interpretation

  /** Why a calculator cannot be built: fewer than three readings. The
      refusal names the required minimum, not the count provided. */
  datatype CalculatorError = InsufficientMeasurements

  /** The keys of the result record. */
  const ResultKeys: set<string> := {
    "safe_iop", "possible_iop", "clinical_iop", "mean_iop", "trimean_iop",
    "iqm_iop", "winsorized_iop", "weighted_iop", "min_iop", "max_iop",
    "variability", "std_dev", "n_measurements"
  }

  /** The result record, written as the source's dictionary display is:
      the trimean entry appears twice, and the second one, equal to the
      first, overrides it. */
  function ResultRecord(safe: real, possible: real, clinical: real, mean: real,
                        trimean: real, iqm: real, winsorized: real, weighted: real,
                        minIop: real, maxIop: real, variability: real, stdDev: real,
                        count: real): (r: map<string, real>)
    ensures r.Keys == ResultKeys
  {
    map[
      "safe_iop" := safe,
      "possible_iop" := possible,
      "clinical_iop" := clinical,
      "mean_iop" := mean,
      "trimean_iop" := trimean,
      "trimean_iop" := trimean,
      "iqm_iop" := iqm,
      "winsorized_iop" := winsorized,
      "weighted_iop" := weighted,
      "min_iop" := minIop,
      "max_iop" := maxIop,
      "variability" := variability,
      "std_dev" := stdDev,
      "n_measurements" := count
    ]
  }

  /** The thirteen keys are distinct. */
  lemma ResultKeysCount()
    ensures |ResultKeys| == 13
  {
  }

  /** Each key of the record holds the value given for it. */
  lemma ResultRecordEntries(safe: real, possible: real, clinical: real, mean: real,
                            trimean: real, iqm: real, winsorized: real, weighted: real,
                            minIop: real, maxIop: real, variability: real, stdDev: real,
                            count: real)
    ensures var r := ResultRecord(safe, possible, clinical, mean, trimean, iqm, winsorized,
                                  weighted, minIop, maxIop, variability, stdDev, count);
      r["safe_iop"] == safe && r["possible_iop"] == possible &&
      r["clinical_iop"] == clinical && r["mean_iop"] == mean &&
      r["trimean_iop"] == trimean && r["iqm_iop"] == iqm &&
      r["winsorized_iop"] == winsorized && r["weighted_iop"] == weighted
    ensures var r := ResultRecord(safe, possible, clinical, mean, trimean, iqm, winsorized,
                                  weighted, minIop, maxIop, variability, stdDev, count);
      r["min_iop"] == minIop && r["max_iop"] == maxIop &&
      r["variability"] == variability && r["std_dev"] == stdDev &&
      r["n_measurements"] == count
  {
  }

  /** Every one of the eight estimates lies between the smallest and the
      largest reading. */
  lemma EstimatesWithinRange(s: seq<real>)
    requires |s| > 0
    ensures Min(s) <= SafeIop.CalculateSafeIop(s) <= Max(s)
    ensures Min(s) <= PossibleIop.CalculatePossibleIop(s) <= Max(s)
    ensures Min(s) <= ClinicalIop.CalculateClinicalIop(s) <= Max(s)
    ensures Min(s) <= MeanIop.CalculateMeanIop(s) <= Max(s)
    ensures Min(s) <= TrimeanIop.CalculateTrimeanIop(s) <= Max(s)
    ensures Min(s) <= IqmIop.CalculateIqmIop(s) <= Max(s)
    ensures Min(s) <= WinsorizedIop.WinsorizedMean(s) <= Max(s)
    ensures Min(s) <= WeightedIop.CalculateWeightedIop(s) <= Max(s)
  {
    SafeIop.SafeIopWithin(s);
    PossibleIop.PossibleIopIsMedian(s);
    ClinicalIop.ClinicalIopIsMidrange(s);
    MeanIop.MeanIopWithin(s);
    TrimeanIop.TrimeanIopWithin(s);
    IqmIop.IqmIopWithin(s);
    WinsorizedIop.WinsorizedMeanWithin(s);
    WeightedIop.WeightedIopWithin(s);
  }

  /** A sample that repeats one value v has every estimate equal to v and
      no spread. */
  lemma EstimatesOfConstantSample(s: seq<real>, v: real)
    requires |s| > 0 && Within(s, v, v)
    ensures SafeIop.CalculateSafeIop(s) == v
    ensures PossibleIop.CalculatePossibleIop(s) == v
    ensures ClinicalIop.CalculateClinicalIop(s) == v
    ensures MeanIop.CalculateMeanIop(s) == v
    ensures TrimeanIop.CalculateTrimeanIop(s) == v
    ensures IqmIop.CalculateIqmIop(s) == v
    ensures WinsorizedIop.WinsorizedMean(s) == v
    ensures WeightedIop.CalculateWeightedIop(s) == v
    ensures Statistics.GetVariability(s) == 0.0
    ensures |s| >= 2 ==> Statistics.GetVariance(s) == 0.0
  {
    MinMaxIn(s);
    assert Min(s) == v && Max(s) == v;
    EstimatesWithinRange(s);
    Statistics.VariabilityZeroIffAllEqual(s);
    if |s| >= 2 {
      Statistics.VarianceZeroIffAllEqual(s);
    }
  }

  class IopCalculator {
    /** The readings as passed to the constructor. */
    ghost var readings: seq<real>
    /** The readings in ascending order. */
    var measurements: seq<real>
    /** The number of readings. */
    var n: nat

    ghost predicate Valid()
      reads this
    {
      |readings| >= 3 && measurements == Sort(readings) && n == |readings|
    }

    /** Stores the sorted readings and their count. */
    constructor(ms: seq<real>)
      requires |ms| >= 3
      ensures Valid() && readings == ms
      ensures measurements == Sort(ms) && n == |ms|
    {
      readings := ms;
      measurements := Sort(ms);
      n := |ms|;
    }

    /** The constructor as the source runs it: fewer than three readings are
        refused, otherwise a fresh calculator holds them. */
    static method Create(ms: seq<real>) returns (r: Result<IopCalculator, CalculatorError>)
      ensures r.Err? <==> |ms| < 3
      ensures r.Err? ==> r.error == InsufficientMeasurements
      ensures r.Ok? ==> fresh(r.value) && r.value.Valid() && r.value.readings == ms
    {
      if |ms| < 3 {
        return Err(InsufficientMeasurements);
      }
      var c := new IopCalculator(ms);
      return Ok(c);
    }

    /** The stored readings are an ascending rearrangement of the input, of
        the same count. */
    lemma SortedReadings()
      requires Valid()
      ensures Sorted(measurements) && multiset(measurements) == multiset(readings)
      ensures |measurements| == n && n >= 3
    {
    }

    function CalculateSafeIop(): (r: real)
      reads this
      requires Valid()
      ensures r == SafeIop.CalculateSafeIop(readings)
      ensures Min(readings) <= r <= Max(readings)
    {
      SafeIop.SafeIopPermutation(measurements, readings);
      SafeIop.SafeIopWithin(readings);
      SafeIop.CalculateSafeIop(measurements)
    }

    function CalculatePossibleIop(): (r: real)
      reads this
      requires Valid()
      ensures r == PossibleIop.CalculatePossibleIop(readings)
      ensures Min(readings) <= r <= Max(readings)
    {
      PossibleIop.PossibleIopPermutation(measurements, readings);
      PossibleIop.PossibleIopIsMedian(readings);
      PossibleIop.CalculatePossibleIop(measurements)
    }

    function CalculateClinicalIop(): (r: real)
      reads this
      requires Valid()
      ensures r == ClinicalIop.CalculateClinicalIop(readings)
      ensures Min(readings) <= r <= Max(readings)
    {
      ClinicalIop.ClinicalIopPermutation(measurements, readings);
      ClinicalIop.ClinicalIopIsMidrange(readings);
      ClinicalIop.CalculateClinicalIop(measurements)
    }

    function CalculateMeanIop(): (r: real)
      reads this
      requires Valid()
      ensures r == MeanIop.CalculateMeanIop(readings)
      ensures Min(readings) <= r <= Max(readings)
    {
      MeanIop.MeanIopPermutation(measurements, readings);
      MeanIop.MeanIopWithin(readings);
      MeanIop.CalculateMeanIop(measurements)
    }

    function CalculateTrimeanIop(): (r: real)
      reads this
      requires Valid()
      ensures r == TrimeanIop.CalculateTrimeanIop(readings)
      ensures Min(readings) <= r <= Max(readings)
    {
      TrimeanIop.TrimeanIopPermutation(measurements, readings);
      TrimeanIop.TrimeanIopWithin(readings);
      TrimeanIop.CalculateTrimeanIop(measurements)
    }

    function CalculateIqmIop(): (r: real)
      reads this
      requires Valid()
      ensures r == IqmIop.CalculateIqmIop(readings)
      ensures Min(readings) <= r <= Max(readings)
    {
      IqmIop.IqmIopPermutation(measurements, readings);
      IqmIop.IqmIopWithin(readings);
      IqmIop.CalculateIqmIop(measurements)
    }

    method CalculateWinsorizedIop() returns (r: real)
      requires Valid()
      ensures r == WinsorizedIop.WinsorizedMean(readings)
      ensures Min(readings) <= r <= Max(readings)
    {
      SortedReadings();
      WinsorizedIop.WinsorizedMeanPermutation(measurements, readings);
      MinMaxPermutation(measurements, readings);
      r := WinsorizedIop.CalculateWinsorizedIop(measurements);
    }

    function CalculateWeightedIop(): (r: real)
      reads this
      requires Valid()
      ensures r == WeightedIop.CalculateWeightedIop(readings)
      ensures Min(readings) <= r <= Max(readings)
    {
      WeightedIop.WeightedIopPermutation(measurements, readings);
      WeightedIop.WeightedIopWithin(readings);
      WeightedIop.CalculateWeightedIop(measurements)
    }

    function GetRange(): (r: (real, real))
      reads this
      requires Valid()
      ensures r == (Min(readings), Max(readings))
      ensures r.0 == measurements[0] && r.1 == measurements[n - 1]
    {
      Statistics.StatisticsPermutation(measurements, readings);
      SortEnds(readings);
      Statistics.GetRange(measurements)
    }

    function GetVariability(): (r: real)
      reads this
      requires Valid()
      ensures r == Max(readings) - Min(readings) >= 0.0
    {
      Statistics.StatisticsPermutation(measurements, readings);
      Statistics.GetVariability(measurements)
    }

    function GetStandardDeviation(sqrt: real -> real): (r: real)
      reads this
      requires Valid()
      ensures r == Statistics.GetStandardDeviation(readings, sqrt)
    {
      Statistics.StatisticsPermutation(measurements, readings);
      Statistics.GetStandardDeviation(measurements, sqrt)
    }

    /** Every estimate and statistic of the sample in one record. The
        record's display repeats the trimean entry; the map keeps one. */
    method CalculateAll(sqrt: real -> real) returns (results: map<string, real>)
      requires Valid()
      ensures results.Keys == ResultKeys && |results| == 13
      ensures results["safe_iop"] == SafeIop.CalculateSafeIop(readings)
      ensures results["possible_iop"] == PossibleIop.CalculatePossibleIop(readings)
      ensures results["clinical_iop"] == ClinicalIop.CalculateClinicalIop(readings)
      ensures results["mean_iop"] == MeanIop.CalculateMeanIop(readings)
      ensures results["trimean_iop"] == TrimeanIop.CalculateTrimeanIop(readings)
      ensures results["iqm_iop"] == IqmIop.CalculateIqmIop(readings)
      ensures results["winsorized_iop"] == WinsorizedIop.WinsorizedMean(readings)
      ensures results["weighted_iop"] == WeightedIop.CalculateWeightedIop(readings)
      ensures results["min_iop"] == Min(readings) && results["max_iop"] == Max(readings)
      ensures results["min_iop"] <= results["max_iop"]
      ensures results["variability"] == results["max_iop"] - results["min_iop"]
      ensures results["std_dev"] == Statistics.GetStandardDeviation(readings, sqrt)
      ensures results["n_measurements"] == n as real == |readings| as real
    {
      var range := GetRange();
      var winsorized := CalculateWinsorizedIop();
      var safe, possible, clinical := CalculateSafeIop(), CalculatePossibleIop(), CalculateClinicalIop();
      var mean, trimean, iqm := CalculateMeanIop(), CalculateTrimeanIop(), CalculateIqmIop();
      var weighted, variability := CalculateWeightedIop(), GetVariability();
      var stdDev := GetStandardDeviation(sqrt);
      ResultKeysCount();
      ResultRecordEntries(safe, possible, clinical, mean, trimean, iqm, winsorized, weighted,
                          range.0, range.1, variability, stdDev, n as real);
      results := ResultRecord(safe, possible, clinical, mean, trimean, iqm, winsorized, weighted,
                              range.0, range.1, variability, stdDev, n as real);
    }

    /** The clinical label of a value; it does not depend on the sample. */
    function InterpretIop(iopValue: real): (r: string)
      reads this
      requires Valid()
      ensures r == Interpretation.InterpretIop(iopValue)
      ensures exists i :: 0 <= i < |Config.ClinicalRanges| && r == Config.LabelAt(i)
    {
      Interpretation.InterpretIopIsLabel(iopValue);
      Interpretation.InterpretIop(iopValue)
    }

    /** The confidence note for the sample's spread. */
    function GetConfidenceNote(): (r: string)
      reads this
      requires Valid()
      ensures r == Interpretation.GetConfidenceNote(Max(readings) - Min(readings))
    {
      Interpretation.GetConfidenceNote(GetVariability())
    }
  }
}
