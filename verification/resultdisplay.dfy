/**
 * The text adapter of `analyzeData`: the remote service answers with a
 * free-text `result` string, from which the label is taken by a
 * case-sensitive substring test for "Malignant" and the confidence by the
 * pattern `Confidence: ([\d.]+)` followed by `parseFloat`.
 */
module ResultText {
  import opened Wrappers
  import opened BreastCancerForm

  /** A JavaScript number as `parseFloat` can return it: NaN or a finite value. */
  datatype JsNumber = NaN | Finite(value: real)

  /** The result record of the display component; its confidence is not range-checked. */
  datatype AnalysisResult = AnalysisResult(prediction: Label, confidence: JsNumber)

  // ----- String.prototype.includes -----

  predicate OccursAt(s: string, p: string, i: int)
  {
    0 <= i && i + |p| <= |s| && s[i..i + |p|] == p
  }

  /** `s.includes(p)`, scanning from the left. */
  predicate Includes(s: string, p: string)
    decreases |s|
    ensures |p| == 0 ==> Includes(s, p)
    ensures Includes(s, p) ==> |p| <= |s|
  {
    (|p| <= |s| && s[..|p|] == p) || (|s| > 0 && Includes(s[1..], p))
  }

  /** The scan finds `p` exactly when `p` occurs somewhere in `s`. */
  lemma IncludesIffOccurs(s: string, p: string)
    ensures Includes(s, p) <==> exists i :: OccursAt(s, p, i)
  {
    if Includes(s, p) {
      IncludesWitness(s, p);
    }
    if exists i :: OccursAt(s, p, i) {
      var i :| OccursAt(s, p, i);
      OccurrenceIncluded(s, p, i);
    }
  }

  lemma {:induction false} IncludesWitness(s: string, p: string)
    requires Includes(s, p)
    ensures exists i :: OccursAt(s, p, i)
    decreases |s|
  {
    if |p| <= |s| && s[..|p|] == p {
      assert OccursAt(s, p, 0);
    } else {
      IncludesWitness(s[1..], p);
      var i :| OccursAt(s[1..], p, i);
      assert s[1..][i..i + |p|] == s[i + 1..i + 1 + |p|];
      assert OccursAt(s, p, i + 1);
    }
  }

  lemma {:induction false} OccurrenceIncluded(s: string, p: string, i: int)
    requires OccursAt(s, p, i)
    ensures Includes(s, p)
    decreases i
  {
    if i > 0 {
      assert s[1..][i - 1..i - 1 + |p|] == s[i..i + |p|];
      OccurrenceIncluded(s[1..], p, i - 1);
    }
  }

  /** The label: "malignant" exactly when the text contains "Malignant", case-sensitively. */
  function LabelOf(text: string): (l: Label)
    ensures l == Malignant <==> exists i :: OccursAt(text, "Malignant", i)
  {
    IncludesIffOccurs(text, "Malignant");
    if Includes(text, "Malignant") then Malignant else Benign
  }

  // ----- the pattern /Confidence: ([\d.]+)/ -----

  const Marker: string := "Confidence: "

  /** `[\d.]`: an ASCII digit or a dot. */
  predicate IsNumChar(c: char)
  {
    '0' <= c <= '9' || c == '.'
  }

  predicate IsDigit(c: char)
  {
    '0' <= c <= '9'
  }

  /** The pattern matches at `i`: the marker, then at least one character of `[\d.]`. */
  predicate MatchAt(s: string, i: int)
  {
    0 <= i && i + |Marker| < |s| && s[i..i + |Marker|] == Marker && IsNumChar(s[i + |Marker|])
  }

  /** The leftmost position at or after `from` where the pattern matches. */
  function FindMatch(s: string, from: nat): (m: Option<nat>)
    decreases |s| - from
    ensures m.Some? ==> from <= m.value && MatchAt(s, m.value)
    ensures m.Some? ==> forall j :: from <= j < m.value ==> !MatchAt(s, j)
    ensures m.None? ==> forall j :: from <= j ==> !MatchAt(s, j)
  {
    if from + |Marker| >= |s| then None
    else if MatchAt(s, from) then Some(from)
    else FindMatch(s, from + 1)
  }

  /** The length of the greedy run `[\d.]+` that starts at `k`. */
  function RunLength(s: string, k: nat): (n: nat)
    requires k <= |s|
    decreases |s| - k
    ensures k + n <= |s|
    ensures forall j :: k <= j < k + n ==> IsNumChar(s[j])
    ensures k + n == |s| || !IsNumChar(s[k + n])
  {
    if k == |s| || !IsNumChar(s[k]) then 0 else 1 + RunLength(s, k + 1)
  }

  /** The captured group of the first match, if the pattern matches at all. */
  function Capture(s: string): (g: Option<string>)
    ensures g.Some? ==> |g.value| >= 1 && NumChars(g.value)
  {
    match FindMatch(s, 0)
    case None => None
    case Some(i) => Some(s[i + |Marker|..i + |Marker| + RunLength(s, i + |Marker|)])
  }

  // ----- parseFloat, on strings over [0-9.] -----

  /** The number of leading ASCII digits. */
  function DigitCount(t: string): (n: nat)
    ensures n <= |t|
    ensures forall j :: 0 <= j < n ==> IsDigit(t[j])
    ensures n == |t| || !IsDigit(t[n])
  {
    if t == [] || !IsDigit(t[0]) then 0 else 1 + DigitCount(t[1..])
  }

  /** The string is made of `[\d.]` characters only. */
  predicate NumChars(t: string)
  {
    forall j :: 0 <= j < |t| ==> IsNumChar(t[j])
  }

  predicate AllDigits(ds: string)
  {
    forall j :: 0 <= j < |ds| ==> IsDigit(ds[j])
  }

  /** The value of one decimal digit. */
  function Val(c: char): (v: int) { c as int - '0' as int }

  /** The value of a string of decimal digits, most significant first. */
  function DigitsValue(ds: string): (v: nat)
    requires AllDigits(ds)
  {
    if ds == [] then 0
    else DigitsValue(ds[..|ds| - 1]) * 10 + Val(ds[|ds| - 1])
  }

  function Pow10(n: nat): (p: nat)
    ensures p >= 1
  {
    if n == 0 then 1 else 10 * Pow10(n - 1)
  }

  /** The value of `whole.fraction` in decimal notation. */
  function Decimal(whole: string, fraction: string): (x: real)
    requires AllDigits(whole) && AllDigits(fraction)
  {
    DigitsValue(whole) as real + DigitsValue(fraction) as real / Pow10(|fraction|) as real
  }

  /**
   * `parseFloat` on a string of digits and dots: the value of the longest
   * prefix of the form digits [ "." digits ] with at least one digit, or
   * NaN when there is no such prefix.
   */
  function ParseFloat(t: string): (v: JsNumber)
    requires NumChars(t)
    ensures v.Finite? ==> v.value >= 0.0
  {
    var n := DigitCount(t);
    if n < |t| then
      var m := DigitCount(t[n + 1..]);
      if n == 0 && m == 0 then NaN
      else Finite(Decimal(t[..n], t[n + 1..][..m]))
    else if n == 0 then NaN
    else Finite(DigitsValue(t) as real)
  }

  /** NaN exactly when the string has no leading digit and is not a dot followed by a digit. */
  lemma ParseFloatNaN(t: string)
    requires NumChars(t)
    ensures ParseFloat(t) == NaN <==> (t == [] || (t[0] == '.' && (|t| == 1 || !IsDigit(t[1]))))
  {
  }

  /** A digit string followed by a non-digit (or nothing) has exactly that many leading digits. */
  lemma {:induction false} DigitCountOf(ds: string, rest: string)
    requires AllDigits(ds)
    requires rest == [] || !IsDigit(rest[0])
    ensures DigitCount(ds + rest) == |ds|
  {
    if ds != [] {
      assert (ds + rest)[1..] == ds[1..] + rest;
      DigitCountOf(ds[1..], rest);
    } else {
      assert ds + rest == rest;
    }
  }

  /**
   * The longest numeric prefix: `whole "." fraction` followed by nothing
   * or by a further dot parses to the decimal value of `whole.fraction`.
   */
  lemma ParseFloatDecimal(whole: string, fraction: string, rest: string)
    requires AllDigits(whole) && AllDigits(fraction) && |whole| + |fraction| > 0
    requires NumChars(rest) && (rest == [] || rest[0] == '.')
    ensures NumChars(whole + "." + fraction + rest)
    ensures ParseFloat(whole + "." + fraction + rest) == Finite(Decimal(whole, fraction))
  {
    var tail := fraction + rest;
    var dotted := "." + tail;
    var t := whole + dotted;
    assert whole + "." + fraction + rest == t;
    assert NumChars(t) by {
      forall j | 0 <= j < |t|
        ensures IsNumChar(t[j])
      {
        if j > |whole| + |fraction| {
          assert t[j] == rest[j - |whole| - 1 - |fraction|];
        }
      }
    }
    DigitCountOf(whole, dotted);
    assert t[..|whole|] == whole;
    assert t[|whole| + 1..] == tail;
    DigitCountOf(fraction, rest);
    assert tail[..|fraction|] == fraction;
  }

  /** A plain digit string parses to its integer value. */
  lemma ParseFloatInteger(ds: string)
    requires AllDigits(ds) && ds != []
    ensures ParseFloat(ds) == Finite(DigitsValue(ds) as real)
  {
  }

  // ----- the confidence field -----

  /** `parseFloat(text.match(/Confidence: ([\d.]+)/)?.[1] || '0')`. */
  function ConfidenceOf(text: string): (c: JsNumber)
    ensures (forall j :: !MatchAt(text, j)) ==> c == Finite(0.0)
  {
    match Capture(text)
    case None => ParseFloat("0")
    case Some(g) => ParseFloat(g)
  }

  /** The remote result's text, adapted to a label and a confidence. */
  function ParseResult(text: string): (r: AnalysisResult)
    ensures r.prediction == Malignant <==> exists i :: OccursAt(text, "Malignant", i)
    ensures (forall j :: !MatchAt(text, j)) ==> r.confidence == Finite(0.0)
    ensures r.confidence.Finite? ==> r.confidence.value >= 0.0
  {
    AnalysisResult(LabelOf(text), ConfidenceOf(text))
  }

  /**
   * The confidence comes from the first match: when `text` is `p`, the
   * marker, a greedy run of `[\d.]` and a tail that does not continue the
   * run, and the pattern does not match inside `p`, the confidence is the
   * `parseFloat` of the run.
   */
  lemma ConfidenceFromFirstMatch(p: string, run: string, tail: string)
    requires |run| >= 1 && NumChars(run)
    requires tail == [] || !IsNumChar(tail[0])
    requires forall j :: 0 <= j < |p| ==> !MatchAt(p + Marker + run + tail, j)
    ensures ConfidenceOf(p + Marker + run + tail) == ParseFloat(run)
  {
    var s := p + Marker + run + tail;
    var i := |p|;
    assert s[i..i + |Marker|] == Marker;
    assert s[i + |Marker|] == run[0];
    assert MatchAt(s, i);
    assert FindMatch(s, 0) == Some(i);
    RunOf(s, i + |Marker|, run, tail);
  }

  /** The greedy run that starts where `run` starts is `run` itself. */
  lemma {:induction false} RunOf(s: string, k: nat, run: string, tail: string)
    requires k + |run| + |tail| == |s|
    requires s[k..] == run + tail
    requires NumChars(run)
    requires tail == [] || !IsNumChar(tail[0])
    ensures RunLength(s, k) == |run|
    ensures s[k..k + |run|] == run
    decreases |run|
  {
    assert s[k..k + |run|] == (run + tail)[..|run|] == run;
    if run == [] {
      assert k == |s| || s[k] == tail[0];
    } else {
      assert s[k] == run[0];
      assert s[k + 1..] == run[1..] + tail;
      RunOf(s, k + 1, run[1..], tail);
    }
  }

  /** A prefix without the letter 'C' cannot hold the start of a match. */
  lemma NoMatchBefore(p: string, rest: string)
    requires forall j :: 0 <= j < |p| ==> p[j] != 'C'
    ensures forall j :: 0 <= j < |p| ==> !MatchAt(p + rest, j)
  {
    forall j | 0 <= j < |p|
      ensures !MatchAt(p + rest, j)
    {
      var s := p + rest;
      assert s[j] == p[j];
      if j + |Marker| < |s| {
        assert s[j..j + |Marker|][0] == s[j];
      }
    }
  }

  // ----- worked responses -----

  /** A text without the first letter of `p` does not include `p`. */
  lemma NotIncludedWithoutFirstChar(s: string, p: string)
    requires |p| > 0 && forall j :: 0 <= j < |s| ==> s[j] != p[0]
    ensures !Includes(s, p)
  {
    IncludesIffOccurs(s, p);
    forall i | 0 <= i && i + |p| <= |s|
      ensures !OccursAt(s, p, i)
    {
      assert s[i..i + |p|][0] == s[i];
    }
  }

  /** The value of a one-digit string. */
  lemma DigitValue(a: char)
    requires IsDigit(a)
    ensures DigitsValue([a]) == Val(a)
  {
  }

  /** The value of a two-digit string. */
  lemma TwoDigitValue(a: char, b: char)
    requires IsDigit(a) && IsDigit(b)
    ensures DigitsValue([a, b]) == 10 * Val(a) + Val(b)
  {
    assert [a, b][..1] == [a];
    DigitValue(a);
  }

  /** `d.ab` parses to d + (10a + b)/100. */
  lemma ParseTwoPlaces(d: char, a: char, b: char)
    requires IsDigit(d) && IsDigit(a) && IsDigit(b)
    ensures NumChars([d, '.', a, b])
    ensures ParseFloat([d, '.', a, b]) == Finite(Val(d) as real + (10 * Val(a) + Val(b)) as real / 100.0)
  {
    assert [d, '.', a, b] == [d] + "." + [a, b] + "";
    ParseFloatDecimal([d], [a, b], "");
    DigitValue(d);
    TwoDigitValue(a, b);
    assert Pow10(2) == 100;
  }

  /** `d.a.c` parses to d + a/10: the second dot ends the number. */
  lemma ParseOnePlaceThenDot(d: char, a: char, c: char)
    requires IsDigit(d) && IsDigit(a) && IsDigit(c)
    ensures NumChars([d, '.', a, '.', c])
    ensures ParseFloat([d, '.', a, '.', c]) == Finite(Val(d) as real + Val(a) as real / 10.0)
  {
    assert [d, '.', a, '.', c] == [d] + "." + [a] + ['.', c];
    ParseFloatDecimal([d], [a], ['.', c]);
    DigitValue(d);
    DigitValue(a);
    assert Pow10(1) == 10;
  }

  /** `ab` parses to 10a + b. */
  lemma ParseTwoDigits(a: char, b: char)
    requires IsDigit(a) && IsDigit(b)
    ensures ParseFloat([a, b]) == Finite((10 * Val(a) + Val(b)) as real)
  {
    ParseFloatInteger([a, b]);
    TwoDigitValue(a, b);
  }

  lemma BenignConfidence()
    ensures ConfidenceOf("Benign, Confidence: 0.92") == ParseFloat("0.92")
  {
    assert "Benign, Confidence: 0.92" == "Benign, " + Marker + "0.92" + "";
    NoMatchBefore("Benign, ", Marker + "0.92" + "");
    ConfidenceFromFirstMatch("Benign, ", "0.92", "");
  }

  lemma BenignLabel()
    ensures LabelOf("Benign, Confidence: 0.92") == Benign
  {
    NotIncludedWithoutFirstChar("Benign, Confidence: 0.92", "Malignant");
  }

  /** "Benign, Confidence: 0.92" reads as benign with confidence 0.92. */
  lemma BenignExample()
    ensures ParseResult("Benign, Confidence: 0.92") == AnalysisResult(Benign, Finite(0.92))
  {
    BenignConfidence();
    ParseTwoPlaces('0', '9', '2');
    BenignLabel();
  }

  lemma MalignantConfidence()
    ensures ConfidenceOf("Malignant tumor detected, Confidence: 0.81") == ParseFloat("0.81")
  {
    var p := "Malignant tumor detected, ";
    assert p + Marker + "0.81" + "" == "Malignant tumor detected, Confidence: 0.81";
    NoMatchBefore(p, Marker + "0.81" + "");
    ConfidenceFromFirstMatch(p, "0.81", "");
  }

  lemma MalignantLabel()
    ensures LabelOf("Malignant tumor detected, Confidence: 0.81") == Malignant
  {
    var rest := " tumor detected, Confidence: 0.81";
    assert "Malignant" + rest == "Malignant tumor detected, Confidence: 0.81";
    assert ("Malignant" + rest)[0..9] == "Malignant";
    OccurrenceIncluded("Malignant" + rest, "Malignant", 0);
  }

  /** "Malignant tumor detected, Confidence: 0.81" reads as malignant with confidence 0.81. */
  lemma MalignantExample()
    ensures ParseResult("Malignant tumor detected, Confidence: 0.81") == AnalysisResult(Malignant, Finite(0.81))
  {
    MalignantConfidence();
    ParseTwoPlaces('0', '8', '1');
    MalignantLabel();
  }

  lemma UncheckedRangeConfidence()
    ensures ConfidenceOf("Confidence: 87") == ParseFloat("87")
  {
  }

  /** The confidence is not range-checked: "Confidence: 87" gives 87. */
  lemma UncheckedRangeExample()
    ensures ConfidenceOf("Confidence: 87") == Finite(87.0)
  {
    UncheckedRangeConfidence();
    ParseTwoDigits('8', '7');
  }

  lemma LongestPrefixConfidence()
    ensures ConfidenceOf("Confidence: 0.9.1") == ParseFloat("0.9.1")
  {
    assert "Confidence: 0.9.1" == [] + Marker + "0.9.1" + "";
    ConfidenceFromFirstMatch([], "0.9.1", "");
  }

  /** A run such as "0.9.1" gives 0.9, the longest numeric prefix. */
  lemma LongestPrefixExample()
    ensures ConfidenceOf("Confidence: 0.9.1") == Finite(0.9)
  {
    LongestPrefixConfidence();
    ParseOnePlaceThenDot('0', '9', '1');
  }

  /** Case matters, and any occurrence counts: "malignant" is benign, "Not Malignant" is malignant. */
  lemma CaseSensitiveExample()
    ensures LabelOf("malignant") == Benign
    ensures LabelOf("Not Malignant") == Malignant
  {
    IncludesIffOccurs("malignant", "Malignant");
    forall i
      ensures !OccursAt("malignant", "Malignant", i)
    {
      if i == 0 {
        assert "malignant"[0..9][0] == 'm';
      }
    }
    assert OccursAt("Not Malignant", "Malignant", 4);
    IncludesIffOccurs("Not Malignant", "Malignant");
  }
}

/**
 * The stateful part of the display component: the `result`, `isLoading`
 * and `error` state of `analyzeData`, with the network exchange given as
 * an input.
 */
module ResultDisplay {
  import opened Wrappers
  import opened ResultText

  /** How the fetch ended: the request threw, or a response arrived with its
      `ok` flag and, if its body is JSON with a string `result`, that string. */
  datatype Exchange = NetworkFailure | Reply(ok: bool, result: Option<string>)

  const FailureMessage: string := "Failed to analyze data. Please try again."

  /** What the try block produces: the parsed result, or None when it throws. */
  function Outcome(x: Exchange): (r: Option<AnalysisResult>)
    ensures r.Some? <==> x.Reply? && x.ok && x.result.Some?
    ensures r.Some? ==> (r.value.prediction == LabelOf(x.result.value)
                         && r.value.confidence == ConfidenceOf(x.result.value))
  {
    match x
    case NetworkFailure => None
    case Reply(ok, body) =>
      if !ok then None
      else match body
        case None => None
        case Some(text) => Some(ParseResult(text))
  }

  class ResultPanel {
    var result: Option<AnalysisResult>
    var isLoading: bool
    var error: Option<string>

    constructor ()
      ensures result == None && !isLoading && error == None
    {
      result := None;
      isLoading := false;
      error := None;
    }

    /** The synchronous start of `analyzeData`, before the request is awaited. */
    method StartAnalysis()
      modifies this
      ensures isLoading && error == None && result == old(result)
    {
      isLoading := true;
      error := None;
    }

    /** The try/catch/finally that runs once the exchange has ended. */
    method FinishAnalysis(x: Exchange)
      modifies this
      ensures !isLoading
      ensures Outcome(x).Some? ==> result == Outcome(x) && error == old(error)
      ensures Outcome(x).None? ==> result == old(result) && error == Some(FailureMessage)
    {
      var outcome := Outcome(x);
      if outcome.Some? {
        result := outcome;
      } else {
        error := Some(FailureMessage);
      }
      isLoading := false;
    }

    /** `analyzeData`: a success replaces the result and leaves no error; a failure keeps the old result and sets the message; loading always ends. */
    method AnalyzeData(x: Exchange)
      modifies this
      ensures !isLoading
      ensures Outcome(x).Some? ==> result == Outcome(x) && error == None
      ensures Outcome(x).None? ==> result == old(result) && error == Some(FailureMessage)
    {
      StartAnalysis();
      FinishAnalysis(x);
    }
  }
}
