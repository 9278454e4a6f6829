/** The clinical constants of the estimator: the interval table used to
    classify a pressure, its labels, the variability thresholds of the
    confidence note and the measurement constraints of the validator. */
module Config {

  /** One entry of the clinical table: readings v with lo <= v < hi fall in
      the category named key (mmHg). */
  datatype ClinicalRange = ClinicalRange(key: string, lo: real, hi: real)

  /** The clinical table, in the insertion order of the source's dictionary
      (the order in which the classifier scans it). */
  const ClinicalRanges: seq<ClinicalRange> := [
    ClinicalRange("severe_hypotony", 0.0, 6.0),
    ClinicalRange("moderate_hypotony", 6.0, 8.0),
    ClinicalRange("mild_hypotony", 8.0, 10.0),
    ClinicalRange("normal", 10.0, 21.0),
    ClinicalRange("borderline_elevated", 21.0, 24.0),
    ClinicalRange("elevated", 24.0, 30.0),
    ClinicalRange("severely_elevated", 30.0, 100.0)
  ]

  /** The human-readable label of each category key. */
  const InterpretationLabels: map<string, string> := map[
    "severe_hypotony" := "Severe Hypotony",
    "moderate_hypotony" := "Moderate Hypotony",
    "mild_hypotony" := "Mild Hypotony",
    "normal" := "Normal Range",
    "borderline_elevated" := "Borderline Elevated",
    "elevated" := "Elevated",
    "severely_elevated" := "Severely Elevated"
  ]

  /** Upper bounds (inclusive) of the excellent, good and fair tiers of the
      confidence note, in mmHg of range. */
  const ExcellentThreshold: real := 2.0
  const GoodThreshold: real := 4.0
  const FairThreshold: real := 6.0

  const MinMeasurements: nat := 3
  const MinIopValue: real := 0.0
  const MaxIopValue: real := 100.0

  // ---------------------------------------------------------------------
  // Properties of the tables

  /** The table's bounds ascend, each interval ends where the next one
      starts, and every interval is non-empty, so the table covers
      [0, 100) without gaps or overlaps. */
  lemma ClinicalRangesContiguous()
    ensures |ClinicalRanges| == 7
    ensures forall i :: 0 <= i < |ClinicalRanges| ==> ClinicalRanges[i].lo < ClinicalRanges[i].hi
    ensures forall i :: 0 <= i < |ClinicalRanges| - 1 ==> ClinicalRanges[i].hi == ClinicalRanges[i + 1].lo
    ensures ClinicalRanges[0].lo == MinIopValue == 0.0
    ensures ClinicalRanges[|ClinicalRanges| - 1].hi == MaxIopValue == 100.0
  {
  }

  /** The intervals never overlap: a value lies in at most one of them. */
  lemma ClinicalRangesDisjoint(v: real, i: nat, j: nat)
    requires i < j < |ClinicalRanges|
    requires ClinicalRanges[i].lo <= v < ClinicalRanges[i].hi
    ensures !(ClinicalRanges[j].lo <= v < ClinicalRanges[j].hi)
  {
    ClinicalRangesContiguous();
    BoundsAscend(i, j);
  }

  lemma {:induction false} BoundsAscend(i: nat, j: nat)
    requires i < j < |ClinicalRanges|
    ensures ClinicalRanges[i].hi <= ClinicalRanges[j].lo
    decreases j - i
  {
    ClinicalRangesContiguous();
    if i + 1 < j {
      BoundsAscend(i + 1, j);
    }
  }

  /** Every key of the clinical table has a label, the label table has no
      other keys, and the keys are distinct. */
  lemma EveryRangeLabelled()
    ensures forall i :: 0 <= i < |ClinicalRanges| ==> ClinicalRanges[i].key in InterpretationLabels
    ensures InterpretationLabels.Keys == set i | 0 <= i < |ClinicalRanges| :: ClinicalRanges[i].key
    ensures forall i, j :: 0 <= i < j < |ClinicalRanges| ==> ClinicalRanges[i].key != ClinicalRanges[j].key
  {
    var keys := set i | 0 <= i < |ClinicalRanges| :: ClinicalRanges[i].key;
    assert ClinicalRanges[0].key in keys && ClinicalRanges[1].key in keys;
    assert ClinicalRanges[2].key in keys && ClinicalRanges[3].key in keys;
    assert ClinicalRanges[4].key in keys && ClinicalRanges[5].key in keys;
    assert ClinicalRanges[6].key in keys;
  }

  /** The label of the i-th clinical category. */
  function LabelAt(i: nat): string
    requires i < |ClinicalRanges|
  {
    EveryRangeLabelled();
    InterpretationLabels[ClinicalRanges[i].key]
  }

  /** The labels of the seven categories, in table order. */
  lemma LabelsInOrder()
    ensures LabelAt(0) == "Severe Hypotony" && LabelAt(1) == "Moderate Hypotony"
    ensures LabelAt(2) == "Mild Hypotony" && LabelAt(3) == "Normal Range"
    ensures LabelAt(4) == "Borderline Elevated" && LabelAt(5) == "Elevated"
    ensures LabelAt(6) == "Severely Elevated"
  {
  }

  lemma NoCapitalH(i: nat)
    requires 3 <= i < |ClinicalRanges|
    ensures 'H' !in LabelAt(i)
  {
    if i == 3 {
      assert LabelAt(i) == "Normal Range";
    } else if i == 4 {
      assert LabelAt(i) == "Borderline Elevated";
    } else if i == 5 {
      assert LabelAt(i) == "Elevated";
    } else {
      assert LabelAt(i) == "Severely Elevated";
    }
  }

  lemma NoCapitalN(i: nat)
    requires i < |ClinicalRanges| && i != 3
    ensures 'N' !in LabelAt(i)
  {
    if i == 0 {
      assert LabelAt(i) == "Severe Hypotony";
    } else if i == 1 {
      assert LabelAt(i) == "Moderate Hypotony";
    } else if i == 2 {
      assert LabelAt(i) == "Mild Hypotony";
    } else if i == 4 {
      assert LabelAt(i) == "Borderline Elevated";
    } else if i == 5 {
      assert LabelAt(i) == "Elevated";
    } else {
      assert LabelAt(i) == "Severely Elevated";
    }
  }

  /** The confidence thresholds increase strictly, and the validator's
      bounds and minimum count are 0, 100 and 3. */
  lemma ThresholdsAndLimits()
    ensures 0.0 < ExcellentThreshold < GoodThreshold < FairThreshold
    ensures MinIopValue == 0.0 && MaxIopValue == 100.0 && MinMeasurements == 3
  {
  }
}
