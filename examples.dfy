/** Worked examples: the readings 12, 12, 13, 14, 15, in whatever order they
    are typed (as in "12, 14, 13, 15, 12"), through every estimator; and
    raw inputs of two and three readings through the validator. */
module Examples {
  import opened Wrappers
  import opened Samples
  import SafeIop
  import PossibleIop
  import ClinicalIop
  import MeanIop
  import TrimeanIop
  import IqmIop
  import WinsorizedIop
  import WeightedIop
  import Statistics
  import Interpretation
  import Validation

  /** s holds the readings 12, 12, 13, 14, 15, in some order. */
  predicate Readings(s: seq<real>) {
    multiset(s) == multiset{12.0, 12.0, 13.0, 14.0, 15.0}
  }

  /** The five values 12, 12, 13, 14, 15 in ascending order. */
  predicate Ascending(t: seq<real>) {
    |t| == 5 && t[0] == 12.0 && t[1] == 12.0 && t[2] == 13.0 && t[3] == 14.0 && t[4] == 15.0
  }

  /** The readings as typed in "12, 14, 13, 15, 12" are such an order. */
  lemma TypedOrder()
    ensures Readings([12.0, 14.0, 13.0, 15.0, 12.0])
  {
  }

  /** Whatever the order, sorting gives 12, 12, 13, 14, 15. */
  lemma SortReadings(s: seq<real>)
    requires Readings(s)
    ensures Ascending(Sort(s))
  {
    var ordered := [12.0, 12.0, 13.0, 14.0, 15.0];
    AscendingReadings(ordered);
    SortedUnique(Sort(s), ordered);
  }

  /** The ascending arrangement is sorted and holds the readings. */
  lemma AscendingReadings(t: seq<real>)
    requires Ascending(t)
    ensures Sorted(t) && Readings(t)
  {
    assert t == [12.0, 12.0, 13.0, 14.0, 15.0];
  }

  /** The sum of five values. */
  lemma SumOfFive(t: seq<real>)
    requires |t| == 5
    ensures Sum(t) == t[0] + t[1] + t[2] + t[3] + t[4]
  {
    var t1 := t[1..];
    var t2 := t1[1..];
    var t3 := t2[1..];
    var t4 := t3[1..];
    assert t4[1..] == [];
    assert t1[0] == t[1] && t2[0] == t[2] && t3[0] == t[3] && t4[0] == t[4];
    assert Sum(t) == t[0] + Sum(t[1..]);
    assert Sum(t1) == t1[0] + Sum(t1[1..]);
    assert Sum(t2) == t2[0] + Sum(t2[1..]);
    assert Sum(t3) == t3[0] + Sum(t3[1..]);
    assert Sum(t4) == t4[0] + Sum(t4[1..]);
  }

  /** The sum of f over five values. */
  lemma SumOfOverFive(f: real -> real, t: seq<real>)
    requires |t| == 5
    ensures SumOf(f, t) == f(t[0]) + f(t[1]) + f(t[2]) + f(t[3]) + f(t[4])
  {
    var t1 := t[1..];
    var t2 := t1[1..];
    var t3 := t2[1..];
    var t4 := t3[1..];
    assert t4[1..] == [];
    assert t1[0] == t[1] && t2[0] == t[2] && t3[0] == t[3] && t4[0] == t[4];
    assert SumOf(f, t) == f(t[0]) + SumOf(f, t[1..]);
    assert SumOf(f, t1) == f(t1[0]) + SumOf(f, t1[1..]);
    assert SumOf(f, t2) == f(t2[0]) + SumOf(f, t2[1..]);
    assert SumOf(f, t3) == f(t3[0]) + SumOf(f, t3[1..]);
    assert SumOf(f, t4) == f(t4[0]) + SumOf(f, t4[1..]);
  }

  /** Whatever the order, the count, sum, minimum and maximum are those of
      12, 12, 13, 14, 15. */
  lemma ReadingsFacts(s: seq<real>)
    requires Readings(s)
    ensures |s| == 5 && Sum(s) == 66.0 && Min(s) == 12.0 && Max(s) == 15.0
  {
    SortReadings(s);
    SumOfFive(Sort(s));
    SumSort(s);
    SortEnds(s);
  }

  /** The trimmed mean drops one 12 and the 15 although 12 occurs twice:
      (66 - 12 - 15) / 3 = 13. */
  lemma SafeIopWithTies(s: seq<real>)
    requires Readings(s)
    ensures SafeIop.CalculateSafeIop(s) == 13.0
  {
    ReadingsFacts(s);
  }

  lemma MeanIopExample(s: seq<real>)
    requires Readings(s)
    ensures MeanIop.CalculateMeanIop(s) == 13.2
  {
    ReadingsFacts(s);
  }

  lemma PossibleIopExample(s: seq<real>)
    requires Readings(s)
    ensures PossibleIop.CalculatePossibleIop(s) == 13.0
  {
    SortReadings(s);
  }

  lemma ClinicalIopExample(s: seq<real>)
    requires Readings(s)
    ensures ClinicalIop.CalculateClinicalIop(s) == 13.5
  {
    ReadingsFacts(s);
  }

  /** Q1 = 12, the median 13 and Q3 = 14 give the trimean 13. */
  lemma TrimeanIopExample(s: seq<real>)
    requires Readings(s)
    ensures Percentile(s, 25.0) == 12.0 && Percentile(s, 75.0) == 14.0
    ensures TrimeanIop.CalculateTrimeanIop(s) == 13.0
  {
    SortReadings(s);
    assert Position(5, 25.0) == 1.0;
    assert Position(5, 75.0) == 3.0;
    InterpolateAtRank(Sort(s), 1);
    InterpolateAtRank(Sort(s), 3);
  }

  /** The slice [1, 4) of the sorted readings is 12, 13, 14. */
  lemma IqmIopExample(s: seq<real>)
    requires Readings(s)
    ensures IqmIop.CalculateIqmIop(s) == 13.0
  {
    SortReadings(s);
    IqmOfFive(s);
  }

  /** Of five readings the interquartile mean averages the second, third
      and fourth smallest. */
  lemma IqmOfFive(s: seq<real>)
    requires |s| == 5
    ensures IqmIop.CalculateIqmIop(s) == (Sort(s)[1] + Sort(s)[2] + Sort(s)[3]) / 3.0
  {
    var t := Sort(s);
    IqmIop.IqmIopIsSliceMean(s);
    var lo, hi := IqmIop.LowerIndex(5), IqmIop.UpperIndex(5);
    assert lo == 1 && hi == 4;
    assert t[lo..hi] == t[1..4];
    MeanOfMiddleThree(t);
  }

  lemma MeanOfMiddleThree(t: seq<real>)
    requires |t| == 5
    ensures Mean(t[1..4]) == (t[1] + t[2] + t[3]) / 3.0
  {
    assert t[1..4] == [t[1], t[2], t[3]];
    MeanOfTriple(t[1], t[2], t[3]);
  }

  /** The ends 12 and 15 become 12 and 14: the mean of 12, 12, 13, 14, 14. */
  lemma WinsorizedIopExample(s: seq<real>)
    requires Readings(s)
    ensures WinsorizedIop.WinsorizedMean(s) == 13.0
  {
    SortReadings(s);
    var w := WinsorizedIop.Winsorized(Sort(s));
    var t := Sort(s);
    WinsorizedIop.WinsorizedAt(t, 0);
    WinsorizedIop.WinsorizedAt(t, 1);
    WinsorizedIop.WinsorizedAt(t, 2);
    WinsorizedIop.WinsorizedAt(t, 3);
    WinsorizedIop.WinsorizedAt(t, 4);
    SumOfFive(w);
  }

  /** The weights against the median 13 are 1/2, 1/2, 1, 1/2 and 1/3; the
      weighted readings 6, 6, 13, 7 and 5. */
  lemma WeightsOfReadings(t: seq<real>)
    requires Ascending(t)
    ensures SumOf(WeightedIop.WeightOf(13.0), t) == 17.0 / 6.0
    ensures SumOf(WeightedIop.WeightedOf(13.0), t) == 37.0
  {
    var w := WeightedIop.WeightOf(13.0);
    var g := WeightedIop.WeightedOf(13.0);
    assert w(12.0) == 0.5 && w(14.0) == 0.5 && w(13.0) == 1.0 && w(15.0) == 1.0 / 3.0;
    assert g(12.0) == 6.0 && g(14.0) == 7.0 && g(13.0) == 13.0 && g(15.0) == 5.0;
    SumOfOverFive(w, t);
    SumOfOverFive(g, t);
  }

  /** Whatever the order, the weight sum against 13 is 17/6 and the
      weighted sum 37. */
  lemma WeightedSumsOfReadings(s: seq<real>)
    requires Readings(s)
    ensures WeightedIop.WeightSum(s, 13.0) == 17.0 / 6.0
    ensures WeightedIop.WeightedSum(s, 13.0) == 37.0
  {
    SortReadings(s);
    WeightsOfReadings(Sort(s));
    SumOfSort(WeightedIop.WeightOf(13.0), s);
    SumOfSort(WeightedIop.WeightedOf(13.0), s);
  }

  /** The weighted mean is 37 / (17/6) = 222/17, about 13.06. */
  lemma WeightedIopExample(s: seq<real>)
    requires Readings(s)
    ensures WeightedIop.CalculateWeightedIop(s) == 222.0 / 17.0
  {
    PossibleIopExample(s);
    assert PossibleIop.CalculatePossibleIop(s) == Median(s);
    WeightedSumsOfReadings(s);
    assert 37.0 / (17.0 / 6.0) == 222.0 / 17.0;
  }

  /** The spread is 3 mmHg: good but not excellent consistency. */
  lemma SpreadExample(s: seq<real>)
    requires Readings(s)
    ensures Statistics.GetVariability(s) == 3.0
    ensures Interpretation.GetConfidenceNote(Statistics.GetVariability(s)) == Interpretation.GoodNote
  {
    ReadingsFacts(s);
  }

  // ---------------------------------------------------------------------
  // Raw inputs through the validator

  /** When no comma-separated piece of the raw text is blank, its tokens
      are the stripped pieces in input order, and the text is not blank.
      ("10, 12" has the pieces "10" and " 12".) */
  lemma TokensOfPieces(input: string, pieces: seq<string>)
    requires Validation.Split(input) == pieces
    requires forall k :: 0 <= k < |pieces| ==> Validation.Strip(pieces[k]) != []
    ensures |Validation.Tokens(input)| == |pieces|
    ensures forall k :: 0 <= k < |pieces| ==> Validation.Tokens(input)[k] == Validation.Strip(pieces[k])
    ensures !Validation.AllWhitespace(input)
  {
    Validation.NonBlankKeepsOrder(pieces);
    FirstPieceShows(input, pieces);
  }

  /** The raw text begins with its first piece. */
  lemma JoinStartsWithFirst(pieces: seq<string>)
    requires |pieces| >= 1
    ensures |pieces[0]| <= |Validation.Join(pieces)|
    ensures Validation.Join(pieces)[..|pieces[0]|] == pieces[0]
  {
    if |pieces| > 1 {
      assert Validation.Join(pieces) == pieces[0] + ("," + Validation.Join(pieces[1..]));
    }
  }

  /** Pieces that all convert to values in [0, 100] parse to those values,
      one for one and in input order. */
  lemma PiecesParsed(input: string, pieces: seq<string>, toFloat: string -> Option<real>)
    requires Validation.Split(input) == pieces
    requires forall k :: 0 <= k < |pieces| ==> Validation.Strip(pieces[k]) != []
    requires forall k :: 0 <= k < |pieces| ==> (toFloat(Validation.Strip(pieces[k])).Some? &&
      Validation.InIopRange(toFloat(Validation.Strip(pieces[k])).value))
    ensures Validation.ParseIopInput(input, toFloat).Ok?
    ensures var vs := Validation.ParseIopInput(input, toFloat).value;
      |vs| == |pieces| && forall k :: 0 <= k < |pieces| ==> vs[k] == toFloat(Validation.Strip(pieces[k])).value
  {
    TokensOfPieces(input, pieces);
    Validation.ParseIopInputAccepts(input, toFloat);
    Validation.ParseIopInputSuccess(input, toFloat);
  }

  /** When all pieces convert, the first value outside [0, 100], that of
      piece k, is the one reported. */
  lemma PiecesOutOfRange(input: string, pieces: seq<string>, toFloat: string -> Option<real>, k: nat)
    requires Validation.Split(input) == pieces && k < |pieces|
    requires forall j :: 0 <= j < |pieces| ==> Validation.Strip(pieces[j]) != []
    requires forall j :: 0 <= j < |pieces| ==> toFloat(Validation.Strip(pieces[j])).Some?
    requires !Validation.InIopRange(toFloat(Validation.Strip(pieces[k])).value)
    requires forall j :: 0 <= j < k ==> Validation.InIopRange(toFloat(Validation.Strip(pieces[j])).value)
    ensures Validation.ParseIopInput(input, toFloat) == Err(Validation.OutOfRange(toFloat(Validation.Strip(pieces[k])).value))
  {
    TokensOfPieces(input, pieces);
    var tokens := Validation.Tokens(input);
    assert tokens[k] == Validation.Strip(pieces[k]);
    forall j | 0 <= j < |tokens| ensures toFloat(tokens[j]).Some? {
      assert tokens[j] == Validation.Strip(pieces[j]);
    }
    forall j | 0 <= j < k ensures Validation.InIopRange(toFloat(tokens[j]).value) {
      assert tokens[j] == Validation.Strip(pieces[j]);
    }
    Validation.FirstOutOfRangeReported(input, toFloat, k);
  }

  /** A blank piece between two readings, as in "10, ,12", is dropped and
      the other two tokens keep their order. */
  lemma BlankPieceTokens(input: string, pieces: seq<string>)
    requires Validation.Split(input) == pieces && |pieces| == 3
    requires Validation.Strip(pieces[0]) != [] && Validation.Strip(pieces[2]) != []
    requires Validation.Strip(pieces[1]) == []
    ensures Validation.Tokens(input) == [Validation.Strip(pieces[0]), Validation.Strip(pieces[2])]
    ensures !Validation.AllWhitespace(input)
  {
    BlankMiddleDropped(pieces);
    FirstPieceShows(input, pieces);
  }

  /** Of three pieces with a blank middle one, the outer two survive. */
  lemma BlankMiddleDropped(pieces: seq<string>)
    requires |pieces| == 3
    requires Validation.Strip(pieces[0]) != [] && Validation.Strip(pieces[2]) != []
    requires Validation.Strip(pieces[1]) == []
    ensures Validation.NonBlank(pieces) == [Validation.Strip(pieces[0]), Validation.Strip(pieces[2])]
  {
    var t1 := pieces[1..];
    var t2 := t1[1..];
    assert Validation.NonBlank(t2) == [Validation.Strip(pieces[2])] by {
      assert t2[0] == pieces[2];
      assert t2[1..] == [];
    }
    assert Validation.NonBlank(t1) == Validation.NonBlank(t2) by {
      assert t1[0] == pieces[1];
    }
  }

  /** Input whose first piece is not blank is not blank. */
  lemma FirstPieceShows(input: string, pieces: seq<string>)
    requires Validation.Split(input) == pieces && Validation.Strip(pieces[0]) != []
    ensures !Validation.AllWhitespace(input)
  {
    Validation.JoinSplit(input);
    JoinStartsWithFirst(pieces);
    Validation.StripEmptyIffBlank(pieces[0]);
  }

  /** "10, ,12" parses to the two readings, and they are too few: the blank
      piece is not counted. */
  lemma BlankPieceRefused(input: string, pieces: seq<string>, toFloat: string -> Option<real>)
    requires Validation.Split(input) == pieces && |pieces| == 3
    requires Validation.Strip(pieces[0]) != [] && Validation.Strip(pieces[2]) != []
    requires Validation.Strip(pieces[1]) == []
    requires toFloat(Validation.Strip(pieces[0])).Some? && toFloat(Validation.Strip(pieces[2])).Some?
    requires Validation.InIopRange(toFloat(Validation.Strip(pieces[0])).value)
    requires Validation.InIopRange(toFloat(Validation.Strip(pieces[2])).value)
    ensures Validation.ParseIopInput(input, toFloat) ==
      Ok([toFloat(Validation.Strip(pieces[0])).value, toFloat(Validation.Strip(pieces[2])).value])
    ensures Validation.ValidateMeasurements(input, toFloat) == Err(Validation.InsufficientMeasurements(2))
  {
    BlankPieceParsed(input, pieces, toFloat);
    Validation.ValidationOrder(input, toFloat);
  }

  lemma BlankPieceParsed(input: string, pieces: seq<string>, toFloat: string -> Option<real>)
    requires Validation.Split(input) == pieces && |pieces| == 3
    requires Validation.Strip(pieces[0]) != [] && Validation.Strip(pieces[2]) != []
    requires Validation.Strip(pieces[1]) == []
    requires toFloat(Validation.Strip(pieces[0])).Some? && toFloat(Validation.Strip(pieces[2])).Some?
    requires Validation.InIopRange(toFloat(Validation.Strip(pieces[0])).value)
    requires Validation.InIopRange(toFloat(Validation.Strip(pieces[2])).value)
    ensures Validation.ParseIopInput(input, toFloat) ==
      Ok([toFloat(Validation.Strip(pieces[0])).value, toFloat(Validation.Strip(pieces[2])).value])
  {
    BlankPieceTokens(input, pieces);
    TwoTokensParsed(input, Validation.Strip(pieces[0]), Validation.Strip(pieces[2]), toFloat);
  }

  /** Input with exactly two tokens, both readings in range, parses to those two readings. */
  lemma TwoTokensParsed(input: string, a: string, b: string, toFloat: string -> Option<real>)
    requires Validation.Tokens(input) == [a, b] && !Validation.AllWhitespace(input)
    requires toFloat(a).Some? && toFloat(b).Some?
    requires Validation.InIopRange(toFloat(a).value) && Validation.InIopRange(toFloat(b).value)
    ensures Validation.ParseIopInput(input, toFloat) == Ok([toFloat(a).value, toFloat(b).value])
  {
    Validation.ParseIopInputAccepts(input, toFloat);
    Validation.ParseIopInputSuccess(input, toFloat);
    var vs := Validation.ParseIopInput(input, toFloat).value;
    assert vs == [vs[0], vs[1]];
  }

  /** Two readings in range, as in "10, 12", parse in order but are too
      few: the count is reported. */
  lemma TwoReadingsRefused(input: string, pieces: seq<string>, toFloat: string -> Option<real>)
    requires Validation.Split(input) == pieces && |pieces| == 2
    requires forall k :: 0 <= k < 2 ==> Validation.Strip(pieces[k]) != []
    requires forall k :: 0 <= k < 2 ==> (toFloat(Validation.Strip(pieces[k])).Some? &&
      Validation.InIopRange(toFloat(Validation.Strip(pieces[k])).value))
    ensures Validation.ParseIopInput(input, toFloat) ==
      Ok([toFloat(Validation.Strip(pieces[0])).value, toFloat(Validation.Strip(pieces[1])).value])
    ensures Validation.ValidateMeasurements(input, toFloat) == Err(Validation.InsufficientMeasurements(2))
  {
    TwoReadingsParsed(input, pieces, toFloat);
    Validation.ValidationOrder(input, toFloat);
  }

  lemma TwoReadingsParsed(input: string, pieces: seq<string>, toFloat: string -> Option<real>)
    requires Validation.Split(input) == pieces && |pieces| == 2
    requires forall k :: 0 <= k < 2 ==> Validation.Strip(pieces[k]) != []
    requires forall k :: 0 <= k < 2 ==> (toFloat(Validation.Strip(pieces[k])).Some? &&
      Validation.InIopRange(toFloat(Validation.Strip(pieces[k])).value))
    ensures Validation.ParseIopInput(input, toFloat) ==
      Ok([toFloat(Validation.Strip(pieces[0])).value, toFloat(Validation.Strip(pieces[1])).value])
  {
    PiecesParsed(input, pieces, toFloat);
    var vs := Validation.ParseIopInput(input, toFloat).value;
    assert vs == [vs[0], vs[1]];
  }

  /** The first piece whose value is outside [0, 100] is reported, before
      the count is looked at: in "10, 12, 150" the 150, in "150, 10" the
      150 although there are too few readings. */
  lemma OutOfRangeBeforeCount(input: string, pieces: seq<string>, toFloat: string -> Option<real>, k: nat)
    requires Validation.Split(input) == pieces && k < |pieces|
    requires forall j :: 0 <= j < |pieces| ==> Validation.Strip(pieces[j]) != []
    requires forall j :: 0 <= j < |pieces| ==> toFloat(Validation.Strip(pieces[j])).Some?
    requires !Validation.InIopRange(toFloat(Validation.Strip(pieces[k])).value)
    requires forall j :: 0 <= j < k ==> Validation.InIopRange(toFloat(Validation.Strip(pieces[j])).value)
    ensures Validation.ValidateMeasurements(input, toFloat) == Err(Validation.OutOfRange(toFloat(Validation.Strip(pieces[k])).value))
  {
    PiecesOutOfRange(input, pieces, toFloat, k);
    Validation.ValidationOrder(input, toFloat);
  }

  /** A token that is not a number, as in "10, abc, 150", makes the input
      an invalid format although another value is out of range. */
  lemma InvalidFormatExample(input: string, pieces: seq<string>, toFloat: string -> Option<real>)
    requires Validation.Split(input) == pieces && |pieces| == 3
    requires forall k :: 0 <= k < 3 ==> Validation.Strip(pieces[k]) != []
    requires toFloat(Validation.Strip(pieces[0])) == Some(10.0)
    requires toFloat(Validation.Strip(pieces[1])) == None
    requires toFloat(Validation.Strip(pieces[2])) == Some(150.0)
    ensures Validation.ValidateMeasurements(input, toFloat) == Err(Validation.InvalidNumberFormat)
  {
    TokensOfPieces(input, pieces);
    Validation.InvalidTokenRejected(input, toFloat, 1);
  }
}
