/** Clinical interpretation of a pressure value, the confidence note for a
    sample's range, and the colour tag of a clinical label. */
module Interpretation {
  import opened Wrappers
  import opened Config

  /** v falls in the half-open interval [lo, hi) of the range. */
  predicate InRange(r: ClinicalRange, v: real) {
    r.lo <= v < r.hi
  }

  /** The scan of the clinical table: the index of the first range, in table
      order, whose interval contains v; None when no interval does. */
  function FirstMatch(ranges: seq<ClinicalRange>, v: real): (r: Option<nat>)
    ensures r.Some? ==> r.value < |ranges| && InRange(ranges[r.value], v)
    ensures r.Some? ==> forall j :: 0 <= j < r.value ==> !InRange(ranges[j], v)
    ensures r.None? ==> forall j :: 0 <= j < |ranges| ==> !InRange(ranges[j], v)
  {
    if ranges == [] then None
    else if InRange(ranges[0], v) then Some(0)
    else
      match FirstMatch(ranges[1..], v)
      case None => None
      case Some(i) => Some(i + 1)
  }

  /** The clinical label of an IOP value: the label of the first range
      containing it, or "Severely Elevated" when none does. */
  function InterpretIop(iopValue: real): string {
    match FirstMatch(ClinicalRanges, iopValue)
    case Some(i) => LabelAt(i)
    case None =>
      EveryRangeLabelled();
      InterpretationLabels["severely_elevated"]
  }

  /** A value inside the interval of the i-th range gets the i-th label. */
  lemma InterpretIopInRange(v: real, i: nat)
    requires i < |ClinicalRanges| && InRange(ClinicalRanges[i], v)
    ensures InterpretIop(v) == LabelAt(i)
  {
    var r := FirstMatch(ClinicalRanges, v);
    assert r.Some?;
    if r.value < i {
      ClinicalRangesDisjoint(v, r.value, i);
    }
  }

  /** A value outside [0, 100) lies in no interval and falls back to
      "Severely Elevated". */
  lemma InterpretIopOutside(v: real)
    requires v < MinIopValue || v >= MaxIopValue
    ensures InterpretIop(v) == "Severely Elevated"
  {
    ClinicalRangesContiguous();
    assert ClinicalRanges[6].key == "severely_elevated";
    forall j | 0 <= j < |ClinicalRanges| ensures !InRange(ClinicalRanges[j], v) {
      if j < 6 {
        BoundsAscend(j, 6);
      }
      if 0 < j {
        BoundsAscend(0, j);
      }
    }
  }

  /** The seven bands of the clinical classification; every value of 30
      or more, and every negative value, reads as severely elevated. */
  lemma InterpretIopBands(v: real)
    ensures 0.0 <= v < 6.0 ==> InterpretIop(v) == "Severe Hypotony"
    ensures 6.0 <= v < 8.0 ==> InterpretIop(v) == "Moderate Hypotony"
    ensures 8.0 <= v < 10.0 ==> InterpretIop(v) == "Mild Hypotony"
    ensures 10.0 <= v < 21.0 ==> InterpretIop(v) == "Normal Range"
    ensures 21.0 <= v < 24.0 ==> InterpretIop(v) == "Borderline Elevated"
    ensures 24.0 <= v < 30.0 ==> InterpretIop(v) == "Elevated"
    ensures 30.0 <= v || v < 0.0 ==> InterpretIop(v) == "Severely Elevated"
  {
    LabelsInOrder();
    if v < 0.0 || v >= 100.0 {
      InterpretIopOutside(v);
    } else {
      var i := BandIndex(v);
      InterpretIopInRange(v, i);
    }
  }

  /** Every result is the label of one of the seven categories. */
  lemma InterpretIopIsLabel(v: real)
    ensures exists i :: 0 <= i < |ClinicalRanges| && InterpretIop(v) == LabelAt(i)
  {
    match FirstMatch(ClinicalRanges, v)
    case Some(i) =>
      assert InterpretIop(v) == LabelAt(i);
    case None =>
      LabelsInOrder();
      assert InterpretIop(v) == LabelAt(6);
  }

  /** The index of the range of the table that contains v in [0, 100). */
  function BandIndex(v: real): (i: nat)
    requires 0.0 <= v < 100.0
    ensures i < |ClinicalRanges| && InRange(ClinicalRanges[i], v)
  {
    if v < 6.0 then 0 else if v < 8.0 then 1 else if v < 10.0 then 2
    else if v < 21.0 then 3 else if v < 24.0 then 4 else if v < 30.0 then 5
    else 6
  }

  /** The half-open boundaries at the seams around the normal band. */
  lemma InterpretIopBoundaries()
    ensures InterpretIop(9.9) == "Mild Hypotony"
    ensures InterpretIop(10.0) == "Normal Range"
    ensures InterpretIop(20.999) == "Normal Range"
    ensures InterpretIop(21.0) == "Borderline Elevated"
  {
    InterpretIopBands(9.9);
    InterpretIopBands(10.0);
    InterpretIopBands(20.999);
    InterpretIopBands(21.0);
  }

  // ---------------------------------------------------------------------
  // Confidence note

  const ExcellentNote: string := "Excellent measurement consistency - High confidence"
  const GoodNote: string := "Good measurement consistency - Moderate confidence"
  const FairNote: string := "Fair measurement consistency - Consider additional measurements"
  const HighVariabilityNote: string := "High variability detected - Additional measurements recommended"

  /** The notes from best to worst consistency. */
  const ConfidenceNotes: seq<string> := [ExcellentNote, GoodNote, FairNote, HighVariabilityNote]

  /** The confidence note for the range (max - min) of a sample. */
  function GetConfidenceNote(variability: real): string {
    if variability <= ExcellentThreshold then ExcellentNote
    else if variability <= GoodThreshold then GoodNote
    else if variability <= FairThreshold then FairNote
    else HighVariabilityNote
  }

  /** How many of the three thresholds the variability exceeds. */
  function ThresholdsExceeded(variability: real): (k: nat)
    ensures k <= 3
  {
    (if variability > ExcellentThreshold then 1 else 0)
    + (if variability > GoodThreshold then 1 else 0)
    + (if variability > FairThreshold then 1 else 0)
  }

  /** The note is the one ranked by the number of thresholds exceeded. */
  lemma ConfidenceNoteByRank(variability: real)
    ensures GetConfidenceNote(variability) == ConfidenceNotes[ThresholdsExceeded(variability)]
  {
  }

  /** The four tiers and their bounds, inclusive above. */
  lemma ConfidenceTiers(variability: real)
    ensures variability <= 2.0 ==> GetConfidenceNote(variability) == ExcellentNote
    ensures 2.0 < variability <= 4.0 ==> GetConfidenceNote(variability) == GoodNote
    ensures 4.0 < variability <= 6.0 ==> GetConfidenceNote(variability) == FairNote
    ensures 6.0 < variability ==> GetConfidenceNote(variability) == HighVariabilityNote
  {
  }

  /** A larger range never gives a better confidence note. */
  lemma ConfidenceMonotone(v1: real, v2: real)
    requires v1 <= v2
    ensures ThresholdsExceeded(v1) <= ThresholdsExceeded(v2)
  {
  }

  // ---------------------------------------------------------------------
  // Status colour

  /** Python's `sub in s` on strings: sub occurs in s as a contiguous block. */
  predicate Contains(s: string, sub: string)
    decreases |s|
  {
    if |s| < |sub| then false else s[..|sub|] == sub || Contains(s[1..], sub)
  }

  /** A string cannot contain sub if it lacks sub's first character. */
  lemma {:induction false} ContainsNeedsFirstChar(s: string, sub: string)
    requires |sub| > 0 && sub[0] !in s
    ensures !Contains(s, sub)
    decreases |s|
  {
    if |s| >= |sub| {
      assert s[..|sub|][0] == s[0];
      ContainsNeedsFirstChar(s[1..], sub);
    }
  }

  /** sub occurs in s starting at position i. */
  predicate OccursAt(s: string, sub: string, i: int) {
    0 <= i <= |s| - |sub| && s[i..i + |sub|] == sub
  }

  /** Contains means: sub occurs somewhere in s. */
  lemma {:induction false} ContainsAt(s: string, sub: string)
    ensures Contains(s, sub) <==> exists i :: OccursAt(s, sub, i)
    decreases |s|
  {
    if |s| >= |sub| {
      if s[..|sub|] == sub {
        assert OccursAt(s, sub, 0);
      } else {
        ContainsAt(s[1..], sub);
        if Contains(s[1..], sub) {
          var i :| OccursAt(s[1..], sub, i);
          assert s[i + 1..i + 1 + |sub|] == s[1..][i..i + |sub|];
          assert OccursAt(s, sub, i + 1);
        }
        if i :| OccursAt(s, sub, i) {
          assert i != 0;
          assert s[1..][i - 1..i - 1 + |sub|] == s[i..i + |sub|];
          assert OccursAt(s[1..], sub, i - 1);
        }
      }
    }
  }

  /** The three hypotony categories, and only they, have "Hypotony" in
      their label. */
  lemma HypotonyLabels()
    ensures forall i :: 0 <= i < 3 ==> Contains(LabelAt(i), "Hypotony")
    ensures forall i :: 3 <= i < |ClinicalRanges| ==> !Contains(LabelAt(i), "Hypotony")
  {
    forall i | 0 <= i < 3 ensures Contains(LabelAt(i), "Hypotony") {
      HypotonySuffix(i);
    }
    forall i | 3 <= i < |ClinicalRanges| ensures !Contains(LabelAt(i), "Hypotony") {
      NoCapitalH(i);
      ContainsNeedsFirstChar(LabelAt(i), "Hypotony");
    }
  }

  lemma HypotonySuffix(i: nat)
    requires i < 3
    ensures Contains(LabelAt(i), "Hypotony")
  {
    LabelsInOrder();
    if i == 0 {
      SevereHypotonyLabel();
    } else if i == 1 {
      ModerateHypotonyLabel();
    } else {
      MildHypotonyLabel();
    }
  }

  lemma SevereHypotonyLabel() ensures Contains("Severe Hypotony", "Hypotony") {}
  lemma ModerateHypotonyLabel() ensures Contains("Moderate Hypotony", "Hypotony") {}
  lemma MildHypotonyLabel() ensures Contains("Mild Hypotony", "Hypotony") {}

  /** Only the normal category has "Normal" in its label. */
  lemma NormalLabels()
    ensures Contains(LabelAt(3), "Normal")
    ensures forall i :: 0 <= i < |ClinicalRanges| && i != 3 ==> !Contains(LabelAt(i), "Normal")
  {
    assert LabelAt(3) == "Normal Range";
    assert OccursAt(LabelAt(3), "Normal", 0);
    ContainsAt(LabelAt(3), "Normal");
    forall i | 0 <= i < |ClinicalRanges| && i != 3 ensures !Contains(LabelAt(i), "Normal") {
      NoCapitalN(i);
      ContainsNeedsFirstChar(LabelAt(i), "Normal");
    }
  }

  /** The colour tag of a clinical label. */
  function GetStatusColor(interpretation: string): string {
    if Contains(interpretation, "Hypotony") then "red"
    else if Contains(interpretation, "Normal") then "green"
    else "orange"
  }

  /** The colour of each band: hypotony is red, normal green, anything
      elevated (and the negative fallback) orange. */
  lemma StatusColorOfValue(v: real)
    ensures 0.0 <= v < 10.0 ==> GetStatusColor(InterpretIop(v)) == "red"
    ensures 10.0 <= v < 21.0 ==> GetStatusColor(InterpretIop(v)) == "green"
    ensures 21.0 <= v || v < 0.0 ==> GetStatusColor(InterpretIop(v)) == "orange"
  {
    HypotonyLabels();
    NormalLabels();
    if 0.0 <= v < 100.0 {
      var i := BandIndex(v);
      InterpretIopInRange(v, i);
    } else {
      InterpretIopOutside(v);
      LabelsInOrder();
    }
  }
}
