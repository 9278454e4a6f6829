/** Validation of the raw text typed by the user: a comma-separated list of
    readings, each converted to a number, each within the physiological
    window [0, 100] mmHg, and at least three of them.

    The conversion of one token to a number (Python's float()) is a
    parameter, toFloat: None when the token is not a number. */
module Validation {
  import opened Wrappers
  import opened Config

  /** Why a raw input is refused, in the order the checks run. */
  datatype ValidationError =
    | EmptyInput                               // "Input cannot be empty"
    | InvalidNumberFormat                      // a token is not a number
    | NoValidValues                            // only commas and blanks
    | OutOfRange(value: real)                  // the first value outside [0, 100]
    | InsufficientMeasurements(provided: nat)  // fewer than three values

  // ---------------------------------------------------------------------
  // Whitespace and stripping

  /** Python's str.isspace for one character: the ASCII controls TAB to CR
      and FS to US, the space, NEL, NO-BREAK SPACE and the Unicode space
      separators and line/paragraph separators. */
  predicate IsWhitespace(c: char) {
    var u := c as int;
    (0x09 <= u <= 0x0D) || (0x1C <= u <= 0x20) || u == 0x85 || u == 0xA0 ||
    u == 0x1680 || (0x2000 <= u <= 0x200A) || u == 0x2028 || u == 0x2029 ||
    u == 0x202F || u == 0x205F || u == 0x3000
  }

  predicate AllWhitespace(s: string) {
    forall i :: 0 <= i < |s| ==> IsWhitespace(s[i])
  }

  /** The end of the whitespace run of s starting at i. */
  function RunForward(s: string, i: nat): (j: nat)
    requires i <= |s|
    ensures i <= j <= |s|
    ensures forall k :: i <= k < j ==> IsWhitespace(s[k])
    ensures j == |s| || !IsWhitespace(s[j])
    decreases |s| - i
  {
    if i < |s| && IsWhitespace(s[i]) then RunForward(s, i + 1) else i
  }

  /** The start of the whitespace run of s ending just before j. */
  function RunBackward(s: string, j: nat): (i: nat)
    requires j <= |s|
    ensures i <= j
    ensures forall k :: i <= k < j ==> IsWhitespace(s[k])
    ensures i == 0 || !IsWhitespace(s[i - 1])
  {
    if j > 0 && IsWhitespace(s[j - 1]) then RunBackward(s, j - 1) else j
  }

  /** s without its leading whitespace. */
  function TrimStart(s: string): (r: string)
    ensures |r| <= |s| && r == s[|s| - |r|..]
    ensures AllWhitespace(s[..|s| - |r|])
    ensures r == [] || !IsWhitespace(r[0])
  {
    var i := RunForward(s, 0);
    assert forall k :: 0 <= k < i ==> s[..i][k] == s[k];
    s[i..]
  }

  /** s without its trailing whitespace. */
  function TrimEnd(s: string): (r: string)
    ensures |r| <= |s| && r == s[..|r|]
    ensures AllWhitespace(s[|r|..])
    ensures r == [] || !IsWhitespace(r[|r| - 1])
  {
    var j := RunBackward(s, |s|);
    assert forall k :: 0 <= k < |s| - j ==> s[j..][k] == s[j + k];
    s[..j]
  }

  /** Python's str.strip(): s without leading and trailing whitespace. */
  function Strip(s: string): string {
    TrimEnd(TrimStart(s))
  }

  /** The stripped string is the block of s between a whitespace prefix and
      a whitespace suffix, and it neither starts nor ends with whitespace. */
  lemma StripIsCore(s: string)
    ensures exists i, j :: (0 <= i <= j <= |s| && Strip(s) == s[i..j]
      && AllWhitespace(s[..i]) && AllWhitespace(s[j..]))
    ensures Strip(s) == [] || (!IsWhitespace(Strip(s)[0]) && !IsWhitespace(Strip(s)[|Strip(s)| - 1]))
  {
    var i, j := StripBounds(s);
    StripEnds(s);
  }

  /** Where the stripped block starts and ends in s. */
  lemma StripBounds(s: string) returns (i: nat, j: nat)
    ensures i <= j <= |s| && Strip(s) == s[i..j]
    ensures AllWhitespace(s[..i]) && AllWhitespace(s[j..])
  {
    var a := TrimStart(s);
    var r := TrimEnd(a);
    i := |s| - |a|;
    j := i + |r|;
    assert r == s[i..j];
    assert s[j..] == a[|r|..];
  }

  /** The stripped string neither starts nor ends with whitespace. */
  lemma StripEnds(s: string)
    ensures Strip(s) == [] || (!IsWhitespace(Strip(s)[0]) && !IsWhitespace(Strip(s)[|Strip(s)| - 1]))
  {
    var a := TrimStart(s);
    var r := TrimEnd(a);
    if r != [] {
      assert r[0] == a[0];
    }
  }

  /** Trimming either end removes everything exactly from blank strings. */
  lemma TrimBlank(s: string)
    ensures AllWhitespace(s) <==> TrimStart(s) == []
    ensures AllWhitespace(s) <==> TrimEnd(s) == []
  {
    var a, b := TrimStart(s), TrimEnd(s);
    if a == [] {
      assert s[..|s|] == s;
    }
    if b == [] {
      assert s[0..] == s;
    }
  }

  /** A string strips to nothing exactly when it is all whitespace. */
  lemma StripEmptyIffBlank(s: string)
    ensures Strip(s) == [] <==> AllWhitespace(s)
  {
    var a := TrimStart(s);
    TrimBlank(s);
    TrimBlank(a);
  }

  /** Stripping twice is stripping once. */
  lemma StripIdempotent(s: string)
    ensures Strip(Strip(s)) == Strip(s)
  {
    StripIsCore(s);
    var r := Strip(s);
    if r != [] {
      assert !IsWhitespace(r[0]) && !IsWhitespace(r[|r| - 1]);
      assert TrimStart(r) == r;
      assert TrimEnd(r) == r;
    }
  }

  // ---------------------------------------------------------------------
  // Splitting on commas

  /** Python's s.split(','): the pieces between commas, one more piece than
      there are commas; the empty string gives one empty piece. */
  function Split(s: string): (r: seq<string>)
    ensures |r| >= 1
    ensures forall k :: 0 <= k < |r| ==> ',' !in r[k]
  {
    if s == [] then [""]
    else if s[0] == ',' then [""] + Split(s[1..])
    else
      var rest := Split(s[1..]);
      [[s[0]] + rest[0]] + rest[1..]
  }

  /** The pieces put back together with commas between them. */
  function Join(pieces: seq<string>): string
    requires |pieces| >= 1
  {
    if |pieces| == 1 then pieces[0] else pieces[0] + "," + Join(pieces[1..])
  }

  /** Joining the pieces gives back the input. */
  lemma {:induction false} JoinSplit(s: string)
    ensures Join(Split(s)) == s
  {
    if s != [] {
      JoinSplit(s[1..]);
      var rest := Split(s[1..]);
      if s[0] != ',' {
        var r := Split(s);
        assert r[0] == [s[0]] + rest[0] && r[1..] == rest[1..];
        if |rest| > 1 {
          assert Join(r) == r[0] + "," + Join(r[1..]);
          assert Join(rest) == rest[0] + "," + Join(rest[1..]);
        }
      }
    }
  }

  /** Splitting comma-free pieces joined by commas gives back the pieces. */
  lemma {:induction false} SplitJoin(pieces: seq<string>)
    requires |pieces| >= 1
    requires forall k :: 0 <= k < |pieces| ==> ',' !in pieces[k]
    ensures Split(Join(pieces)) == pieces
    decreases |pieces|, |pieces[0]|
  {
    var p := pieces[0];
    if p == [] {
      if |pieces| > 1 {
        assert Join(pieces) == "," + Join(pieces[1..]);
        SplitJoin(pieces[1..]);
        assert Join(pieces)[1..] == Join(pieces[1..]);
      }
    } else {
      var shorter := [p[1..]] + pieces[1..];
      assert shorter[1..] == pieces[1..];
      assert p == [p[0]] + p[1..];
      assert p[0] in p;
      forall k | 0 <= k < |shorter| ensures ',' !in shorter[k] {
        if k == 0 {
          assert forall c :: c in p[1..] ==> c in p;
        }
      }
      SplitJoin(shorter);
      if |pieces| == 1 {
        assert Join(pieces) == [p[0]] + Join(shorter);
      } else {
        assert Join(pieces) == [p[0]] + (p[1..] + "," + Join(pieces[1..]));
        assert Join(shorter) == p[1..] + "," + Join(pieces[1..]);
        assert Join(pieces) == [p[0]] + Join(shorter);
      }
      assert Join(pieces)[1..] == Join(shorter);
    }
  }

  // ---------------------------------------------------------------------
  // Tokens and values

  /** The pieces stripped, with the ones blank after stripping dropped, in
      input order. */
  function NonBlank(pieces: seq<string>): (r: seq<string>)
    ensures |r| <= |pieces|
    ensures forall k :: 0 <= k < |r| ==> r[k] != []
  {
    if pieces == [] then []
    else
      var rest := NonBlank(pieces[1..]);
      if Strip(pieces[0]) == [] then rest else [Strip(pieces[0])] + rest
  }

  /** One piece gives its stripped form as a token, or none when it is
      blank. */
  lemma NonBlankOne(piece: string)
    ensures NonBlank([piece]) == if Strip(piece) == [] then [] else [Strip(piece)]
  {
    assert [piece][1..] == [];
  }

  /** Filtering the concatenation of two runs of pieces filters each run and
      concatenates the tokens: blank pieces are dropped wherever they are,
      and the surviving tokens keep their input order. */
  lemma {:induction false} NonBlankConcat(a: seq<string>, b: seq<string>)
    ensures NonBlank(a + b) == NonBlank(a) + NonBlank(b)
  {
    if a == [] {
      assert a + b == b;
    } else {
      assert (a + b)[0] == a[0];
      assert (a + b)[1..] == a[1..] + b;
      NonBlankConcat(a[1..], b);
    }
  }

  /** Exactly the pieces that are all whitespace are dropped. */
  lemma {:induction false} NonBlankEmptyIff(pieces: seq<string>)
    ensures NonBlank(pieces) == [] <==> forall k :: 0 <= k < |pieces| ==> Strip(pieces[k]) == []
  {
    if pieces != [] {
      NonBlankEmptyIff(pieces[1..]);
      if Strip(pieces[0]) == [] {
        forall k | 0 <= k < |pieces| && (forall m :: 0 <= m < |pieces[1..]| ==> Strip(pieces[1..][m]) == [])
          ensures Strip(pieces[k]) == []
        {
          if k > 0 {
            assert pieces[k] == pieces[1..][k - 1];
          }
        }
        if NonBlank(pieces) != [] {
          var m :| 0 <= m < |pieces[1..]| && Strip(pieces[1..][m]) != [];
          assert Strip(pieces[m + 1]) != [];
        }
      }
    }
  }

  /** Every kept token is already stripped. */
  lemma {:induction false} NonBlankStripped(pieces: seq<string>)
    ensures forall k :: 0 <= k < |NonBlank(pieces)| ==> Strip(NonBlank(pieces)[k]) == NonBlank(pieces)[k]
  {
    if pieces != [] {
      var rest := NonBlank(pieces[1..]);
      NonBlankStripped(pieces[1..]);
      if Strip(pieces[0]) != [] {
        var r := [Strip(pieces[0])] + rest;
        StripIdempotent(pieces[0]);
        forall k | 0 < k < |r| ensures Strip(r[k]) == r[k] {
          assert r[k] == rest[k - 1];
        }
      }
    }
  }

  /** When no piece is blank, the tokens are the stripped pieces, one for
      one and in the same order. */
  lemma {:induction false} NonBlankKeepsOrder(pieces: seq<string>)
    requires forall k :: 0 <= k < |pieces| ==> Strip(pieces[k]) != []
    ensures |NonBlank(pieces)| == |pieces|
    ensures forall k :: 0 <= k < |pieces| ==> NonBlank(pieces)[k] == Strip(pieces[k])
  {
    NonBlankKeepsLength(pieces);
    forall k | 0 <= k < |pieces| ensures NonBlank(pieces)[k] == Strip(pieces[k]) {
      NonBlankKeepsAt(pieces, k);
    }
  }

  /** When no piece is blank, no token is lost. */
  lemma {:induction false} NonBlankKeepsLength(pieces: seq<string>)
    requires forall k :: 0 <= k < |pieces| ==> Strip(pieces[k]) != []
    ensures |NonBlank(pieces)| == |pieces|
  {
    if pieces != [] {
      NonBlankTailKept(pieces);
      NonBlankKeepsLength(pieces[1..]);
    }
  }

  /** When no piece is blank, the k-th token is the k-th piece, stripped. */
  lemma {:induction false} NonBlankKeepsAt(pieces: seq<string>, k: nat)
    requires forall j :: 0 <= j < |pieces| ==> Strip(pieces[j]) != []
    requires k < |pieces|
    ensures |NonBlank(pieces)| == |pieces| && NonBlank(pieces)[k] == Strip(pieces[k])
  {
    NonBlankKeepsLength(pieces);
    NonBlankTailKept(pieces);
    if k > 0 {
      NonBlankKeepsAt(pieces[1..], k - 1);
      assert pieces[1..][k - 1] == pieces[k];
    }
  }

  /** The tail of a run without blank pieces has no blank pieces, and the
      first piece is kept. */
  lemma NonBlankTailKept(pieces: seq<string>)
    requires forall j :: 0 <= j < |pieces| ==> Strip(pieces[j]) != []
    requires pieces != []
    ensures forall j :: 0 <= j < |pieces| - 1 ==> Strip(pieces[1..][j]) != []
    ensures NonBlank(pieces) == [Strip(pieces[0])] + NonBlank(pieces[1..])
  {
    forall j | 0 <= j < |pieces| - 1 ensures Strip(pieces[1..][j]) != [] {
      assert pieces[1..][j] == pieces[j + 1];
    }
  }

  /** The tokens of the input: the comma-separated pieces, stripped, the
      blank ones left out. */
  function Tokens(input: string): seq<string> {
    NonBlank(Split(input))
  }

  /** Converts every token, in order; fails as soon as one token is not a
      number (the list comprehension raising). */
  function ParseValues(tokens: seq<string>, toFloat: string -> Option<real>): (r: Result<seq<real>, ValidationError>)
    ensures r.Ok? <==> forall k :: 0 <= k < |tokens| ==> toFloat(tokens[k]).Some?
    ensures r.Err? ==> r.error == InvalidNumberFormat
    ensures r.Ok? ==> (|r.value| == |tokens| &&
      forall k :: 0 <= k < |tokens| ==> r.value[k] == toFloat(tokens[k]).value)
  {
    if tokens == [] then Ok([])
    else
      match toFloat(tokens[0])
      case None => Err(InvalidNumberFormat)
      case Some(v) =>
        match ParseValues(tokens[1..], toFloat)
        case Err(e) => Err(e)
        case Ok(vs) => Ok([v] + vs)
  }

  predicate InIopRange(v: real) {
    MinIopValue <= v <= MaxIopValue
  }

  /** The index of the first value outside [0, 100], if any. */
  function FirstOutOfRange(values: seq<real>): (r: Option<nat>)
    ensures r.Some? ==> (r.value < |values| && !InIopRange(values[r.value])
      && forall k :: 0 <= k < r.value ==> InIopRange(values[k]))
    ensures r.None? ==> forall k :: 0 <= k < |values| ==> InIopRange(values[k])
  {
    if values == [] then None
    else if !InIopRange(values[0]) then Some(0)
    else
      match FirstOutOfRange(values[1..])
      case None => None
      case Some(k) => Some(k + 1)
  }

  // ---------------------------------------------------------------------
  // The validation pipeline

  /** Parse the raw text: refuse blank input, convert every token (any
      failure is an invalid format, before any range check), refuse an
      input with no tokens, then report the first value outside [0, 100].
      The values come back in input order. */
  function ParseIopInput(input: string, toFloat: string -> Option<real>): Result<seq<real>, ValidationError> {
    if Strip(input) == [] then Err(EmptyInput)
    else
      match ParseValues(Tokens(input), toFloat)
      case Err(e) => Err(e)
      case Ok(values) =>
        if values == [] then Err(NoValidValues)
        else
          match FirstOutOfRange(values)
          case Some(k) => Err(OutOfRange(values[k]))
          case None => Ok(values)
  }

  /** At least three readings are required. */
  function ValidateMeasurementCount(measurements: seq<real>): (r: Result<(), ValidationError>)
    ensures r.Ok? <==> |measurements| >= 3
    ensures r.Err? ==> r.error == InsufficientMeasurements(|measurements|)
  {
    if |measurements| < MinMeasurements then Err(InsufficientMeasurements(|measurements|))
    else Ok(())
  }

  /** The whole pipeline: parsing, then the count check. */
  function ValidateMeasurements(input: string, toFloat: string -> Option<real>): Result<seq<real>, ValidationError> {
    match ParseIopInput(input, toFloat)
    case Err(e) => Err(e)
    case Ok(values) =>
      match ValidateMeasurementCount(values)
      case Err(e) => Err(e)
      case Ok(_) => Ok(values)
  }

  // ---------------------------------------------------------------------
  // Properties of the pipeline

  /** Blank input, and only blank input, is refused as empty. */
  lemma EmptyInputIffBlank(input: string, toFloat: string -> Option<real>)
    ensures ParseIopInput(input, toFloat) == Err(EmptyInput) <==> AllWhitespace(input)
  {
    StripEmptyIffBlank(input);
  }

  /** A non-blank input with a token that is not a number is an invalid
      format, whatever the other tokens hold: no range check is made. */
  lemma InvalidTokenRejected(input: string, toFloat: string -> Option<real>, k: nat)
    requires !AllWhitespace(input)
    requires k < |Tokens(input)| && toFloat(Tokens(input)[k]).None?
    ensures ParseIopInput(input, toFloat) == Err(InvalidNumberFormat)
  {
    StripEmptyIffBlank(input);
  }

  /** A non-blank input whose comma-separated pieces are all blank has no
      values. */
  lemma OnlySeparatorsRejected(input: string, toFloat: string -> Option<real>)
    requires !AllWhitespace(input)
    requires forall k :: 0 <= k < |Split(input)| ==> AllWhitespace(Split(input)[k])
    ensures ParseIopInput(input, toFloat) == Err(NoValidValues)
  {
    StripEmptyIffBlank(input);
    forall k | 0 <= k < |Split(input)| ensures Strip(Split(input)[k]) == [] {
      StripEmptyIffBlank(Split(input)[k]);
    }
    NonBlankEmptyIff(Split(input));
  }

  /** When every token converts, the first value outside [0, 100] in input
      order is the one reported. */
  lemma FirstOutOfRangeReported(input: string, toFloat: string -> Option<real>, k: nat)
    requires !AllWhitespace(input)
    requires forall j :: 0 <= j < |Tokens(input)| ==> toFloat(Tokens(input)[j]).Some?
    requires k < |Tokens(input)|
    requires !InIopRange(toFloat(Tokens(input)[k]).value)
    requires forall j :: 0 <= j < k ==> InIopRange(toFloat(Tokens(input)[j]).value)
    ensures ParseIopInput(input, toFloat) == Err(OutOfRange(toFloat(Tokens(input)[k]).value))
  {
    StripEmptyIffBlank(input);
    var values := ParseValues(Tokens(input), toFloat).value;
    var f := FirstOutOfRange(values);
    assert f.Some?;
    assert f.value == k;
  }

  /** A successful parse comes from non-blank input with at least one
      token; its values are the converted tokens in input order, unsorted,
      and all lie in [0, 100]. */
  lemma ParseIopInputSuccess(input: string, toFloat: string -> Option<real>)
    requires ParseIopInput(input, toFloat).Ok?
    ensures !AllWhitespace(input) && |Tokens(input)| > 0
    ensures var vs := ParseIopInput(input, toFloat).value;
      |vs| == |Tokens(input)| &&
      (forall k :: 0 <= k < |vs| ==> vs[k] == toFloat(Tokens(input)[k]).value) &&
      (forall k :: 0 <= k < |vs| ==> InIopRange(vs[k]))
  {
    StripEmptyIffBlank(input);
  }

  /** Non-blank input whose tokens, at least one, all convert to values in
      [0, 100] is accepted. */
  lemma ParseIopInputAccepts(input: string, toFloat: string -> Option<real>)
    requires !AllWhitespace(input) && |Tokens(input)| > 0
    requires forall k :: 0 <= k < |Tokens(input)| ==> toFloat(Tokens(input)[k]).Some?
    requires forall k :: 0 <= k < |Tokens(input)| ==> InIopRange(toFloat(Tokens(input)[k]).value)
    ensures ParseIopInput(input, toFloat).Ok?
  {
    StripEmptyIffBlank(input);
    var values := ParseValues(Tokens(input), toFloat).value;
    assert forall k :: 0 <= k < |values| ==> InIopRange(values[k]);
  }

  /** The count is checked after the range: an input that parses to fewer
      than three values is refused with the count, and any parse error is
      passed on unchanged. */
  lemma ValidationOrder(input: string, toFloat: string -> Option<real>)
    ensures ParseIopInput(input, toFloat).Err? ==>
      ValidateMeasurements(input, toFloat) == ParseIopInput(input, toFloat)
    ensures ParseIopInput(input, toFloat).Ok? && |ParseIopInput(input, toFloat).value| < 3 ==>
      ValidateMeasurements(input, toFloat) == Err(InsufficientMeasurements(|ParseIopInput(input, toFloat).value|))
    ensures ParseIopInput(input, toFloat).Ok? && |ParseIopInput(input, toFloat).value| >= 3 ==>
      ValidateMeasurements(input, toFloat) == ParseIopInput(input, toFloat)
  {
  }

  /** A validated sample has at least three readings, all in [0, 100]. */
  lemma ValidatedSample(input: string, toFloat: string -> Option<real>)
    requires ValidateMeasurements(input, toFloat).Ok?
    ensures var vs := ValidateMeasurements(input, toFloat).value;
      |vs| >= MinMeasurements && forall k :: 0 <= k < |vs| ==> MinIopValue <= vs[k] <= MaxIopValue
  {
  }
}
