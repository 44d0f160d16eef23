/**
 * The local heuristic scorer `predictCancer`: twelve threshold tests on
 * named measurements, a risk ratio, one uniform noise term, a clamp, a
 * 0.5 threshold and a clamped confidence.
 *
 * `Math.random()` is the parameter `rand`, so the scorer is a function:
 * the same features and the same draw always give the same result.
 */
module Prediction {
  import opened BreastCancerForm

  /** One risk predicate: `data[feature] > threshold`. */
  datatype RiskPredicate = RiskPredicate(feature: string, threshold: real)

  /**
   * The twelve risk predicates, in the order the scorer lists them, each
   * with a positive threshold.
   */
  function RiskPredicates(): (ps: seq<RiskPredicate>)
    ensures |ps| == 12
    ensures forall i :: 0 <= i < |ps| ==> ps[i].threshold > 0.0
  {
    [ RiskPredicate("mean_radius", 15.0),
      RiskPredicate("mean_texture", 20.0),
      RiskPredicate("mean_perimeter", 100.0),
      RiskPredicate("mean_area", 750.0),
      RiskPredicate("mean_concavity", 0.3),
      RiskPredicate("mean_concave_points", 0.15),
      RiskPredicate("worst_radius", 25.0),
      RiskPredicate("worst_texture", 25.0),
      RiskPredicate("worst_perimeter", 180.0),
      RiskPredicate("worst_area", 2000.0),
      RiskPredicate("worst_concavity", 0.7),
      RiskPredicate("worst_concave_points", 0.25) ]
  }

  const RandomFactor: real := 0.15
  const MalignancyThreshold: real := 0.5

  /**
   * A strict comparison of one measurement against its threshold. A key
   * that is absent reads as `undefined`, and `undefined > t` is false.
   */
  predicate Holds(data: Features, p: RiskPredicate)
    ensures p.feature !in data ==> !Holds(data, p)
    ensures p.feature in data && data[p.feature] <= p.threshold ==> !Holds(data, p)
  {
    p.feature in data && data[p.feature] > p.threshold
  }

  /** The `riskFactors` array: one boolean per risk predicate. */
  function RiskFactors(data: Features): (factors: seq<bool>)
    ensures |factors| == |RiskPredicates()| == 12
    ensures forall i :: 0 <= i < 12 ==> factors[i] == Holds(data, RiskPredicates()[i])
  {
    seq(|RiskPredicates()|, i requires 0 <= i < |RiskPredicates()| => Holds(data, RiskPredicates()[i]))
  }

  /** `filter(Boolean)`: the true entries of a boolean sequence. */
  function KeepTrue(s: seq<bool>): (t: seq<bool>)
    ensures |t| <= |s|
    ensures forall i :: 0 <= i < |t| ==> t[i]
  {
    if s == [] then []
    else if s[0] then [true] + KeepTrue(s[1..])
    else KeepTrue(s[1..])
  }

  /** `riskFactors.filter(Boolean).length`. */
  function RiskCount(data: Features): (n: nat)
    ensures n <= 12
    ensures n == 0 <==> forall i :: 0 <= i < 12 ==> !Holds(data, RiskPredicates()[i])
    ensures n == 12 <==> forall i :: 0 <= i < 12 ==> Holds(data, RiskPredicates()[i])
  {
    KeepTrueExtremes(RiskFactors(data));
    |KeepTrue(RiskFactors(data))|
  }

  /** `riskCount / riskFactors.length`. */
  function RiskRatio(data: Features): (ratio: real)
    ensures 0.0 <= ratio <= 1.0
  {
    RiskCount(data) as real / |RiskFactors(data)| as real
  }

  function Min(a: real, b: real): (m: real) { if a <= b then a else b }
  function Max(a: real, b: real): (m: real) { if a >= b then a else b }
  function Abs(x: real): (y: real) { if x < 0.0 then -x else x }

  /** The noise term for a draw in [0, 1): uniform on [-0.075, 0.075). */
  function Noise(rand: real): (n: real)
    requires 0.0 <= rand < 1.0
    ensures -RandomFactor / 2.0 <= n < RandomFactor / 2.0
  {
    rand * RandomFactor - RandomFactor / 2.0
  }

  /** The noisy ratio clamped to [0, 1]; the clamp is the identity inside the range. */
  function AdjustedRatio(ratio: real, rand: real): (a: real)
    requires 0.0 <= rand < 1.0
    ensures 0.0 <= a <= 1.0
    ensures 0.0 <= ratio + Noise(rand) <= 1.0 ==> a == ratio + Noise(rand)
  {
    Min(1.0, Max(0.0, ratio + Noise(rand)))
  }

  /** The label: the threshold is inclusive, so exactly 0.5 is malignant. */
  function Classify(adjusted: real): (l: Label)
    ensures adjusted == MalignancyThreshold ==> l == Malignant
    ensures adjusted < MalignancyThreshold ==> l == Benign
    ensures adjusted > MalignancyThreshold ==> l == Malignant
  {
    if adjusted >= MalignancyThreshold then Malignant else Benign
  }

  /** Confidence from the distance to the threshold, clamped to [0.7, 0.99]. */
  function Confidence(adjusted: real): (c: real)
    ensures 0.7 <= c <= 0.99
  {
    var distanceFromThreshold := Abs(adjusted - MalignancyThreshold);
    var confidenceBase := 0.5 + distanceFromThreshold * 0.9;
    Min(0.99, Max(0.7, confidenceBase))
  }

  /** `predictCancer`, with the random draw made explicit. */
  function PredictCancer(data: Features, rand: real): (result: DetectionResult)
    requires 0.0 <= rand < 1.0
    ensures 0.7 <= result.confidence <= 0.99
    ensures result.prediction == Malignant <==> AdjustedRatio(RiskRatio(data), rand) >= 0.5
  {
    var adjusted := AdjustedRatio(RiskRatio(data), rand);
    DetectionResult(Classify(adjusted), Confidence(adjusted))
  }

  // ----- counting -----

  /** Turning entries of the factor list from false to true never lowers the count. */
  lemma {:induction false} KeepTrueMonotone(s1: seq<bool>, s2: seq<bool>)
    requires |s1| == |s2|
    requires forall i :: 0 <= i < |s1| && s1[i] ==> s2[i]
    ensures |KeepTrue(s1)| <= |KeepTrue(s2)|
  {
    if s1 != [] {
      KeepTrueMonotone(s1[1..], s2[1..]);
    }
  }

  /** Turning exactly one false entry to true raises the count by exactly one. */
  lemma {:induction false} KeepTrueRaiseOne(s: seq<bool>, i: nat)
    requires i < |s| && !s[i]
    ensures |KeepTrue(s[i := true])| == |KeepTrue(s)| + 1
  {
    if i == 0 {
      assert s[i := true][1..] == s[1..];
    } else {
      assert s[i := true][1..] == s[1..][i - 1 := true];
      KeepTrueRaiseOne(s[1..], i - 1);
    }
  }

  /** The count is zero exactly when no entry is true, and the length exactly when all are. */
  lemma {:induction false} KeepTrueExtremes(s: seq<bool>)
    ensures |KeepTrue(s)| == 0 <==> forall i :: 0 <= i < |s| ==> !s[i]
    ensures |KeepTrue(s)| == |s| <==> forall i :: 0 <= i < |s| ==> s[i]
  {
    if s != [] {
      KeepTrueExtremes(s[1..]);
      assert forall i :: 1 <= i < |s| ==> s[i] == s[1..][i - 1];
    }
  }

  // ----- properties of the scorer -----

  /** The risk predicates all test features of the form schema. */
  lemma RiskFeaturesAreFormFields()
    ensures forall i :: 0 <= i < |RiskPredicates()| ==> RiskPredicates()[i].feature in FeatureKeys()
  {
  }

  /** No feature is tested twice. */
  lemma RiskFeaturesDistinct()
    ensures forall i, j :: 0 <= i < j < |RiskPredicates()| ==> RiskPredicates()[i].feature != RiskPredicates()[j].feature
  {
  }

  /**
   * Changing one measurement (its value, or whether it is present) moves at
   * most one risk factor: two factors that both differ are the same factor.
   */
  lemma OneMeasurementOneFactor(d1: Features, d2: Features, key: string)
    requires forall k :: k != key ==> (k in d1 <==> k in d2)
    requires forall k :: k != key && k in d1 && k in d2 ==> d1[k] == d2[k]
    ensures forall i, j ::
      (0 <= i < 12 && 0 <= j < 12 &&
       RiskFactors(d1)[i] != RiskFactors(d2)[i] && RiskFactors(d1)[j] != RiskFactors(d2)[j]) ==> i == j
  {
    var f1, f2, ps := RiskFactors(d1), RiskFactors(d2), RiskPredicates();
    forall i | 0 <= i < 12 && f1[i] != f2[i]
      ensures ps[i].feature == key
    {
    }
    RiskFeaturesDistinct();
  }

  /** Two maps that agree on the twelve risk features (presence and value) get the same result. */
  lemma OnlyRiskFeaturesMatter(d1: Features, d2: Features, rand: real)
    requires 0.0 <= rand < 1.0
    requires forall i :: 0 <= i < |RiskPredicates()| ==>
      var k := RiskPredicates()[i].feature;
      (k in d1 <==> k in d2) && (k in d1 ==> d1[k] == d2[k])
    ensures PredictCancer(d1, rand) == PredictCancer(d2, rand)
  {
    assert RiskFactors(d1) == RiskFactors(d2);
  }

  /**
   * The draw decides the label only when exactly six predicates hold:
   * five or fewer is always benign, seven or more always malignant, and at
   * six the label is malignant exactly when the draw is at least 0.5.
   */
  lemma LabelByCount(data: Features, rand: real)
    requires 0.0 <= rand < 1.0
    ensures RiskCount(data) <= 5 ==> PredictCancer(data, rand).prediction == Benign
    ensures RiskCount(data) >= 7 ==> PredictCancer(data, rand).prediction == Malignant
    ensures RiskCount(data) == 6 ==> (PredictCancer(data, rand).prediction == Malignant <==> rand >= 0.5)
  {
  }

  /**
   * Monotonicity: for a fixed draw, if every predicate that holds for d1
   * also holds for d2, then d2's adjusted ratio is no lower and a
   * malignant label for d1 is malignant for d2 too.
   */
  lemma MoreRiskNeverLowers(d1: Features, d2: Features, rand: real)
    requires 0.0 <= rand < 1.0
    requires forall i :: 0 <= i < |RiskPredicates()| && Holds(d1, RiskPredicates()[i]) ==> Holds(d2, RiskPredicates()[i])
    ensures AdjustedRatio(RiskRatio(d1), rand) <= AdjustedRatio(RiskRatio(d2), rand)
    ensures PredictCancer(d1, rand).prediction == Malignant ==> PredictCancer(d2, rand).prediction == Malignant
  {
    KeepTrueMonotone(RiskFactors(d1), RiskFactors(d2));
    assert RiskRatio(d1) <= RiskRatio(d2);
    AdjustedMonotone(RiskRatio(d1), RiskRatio(d2), rand);
  }

  /** The noisy clamp is monotone: a higher ratio never gives a lower adjusted ratio. */
  lemma AdjustedMonotone(r1: real, r2: real, rand: real)
    requires 0.0 <= rand < 1.0
    requires r1 <= r2
    ensures AdjustedRatio(r1, rand) <= AdjustedRatio(r2, rand)
  {
  }

  /** Raising measurements (never removing one) never turns a malignant label benign. */
  lemma HigherMeasurementsNeverLower(d1: Features, d2: Features, rand: real)
    requires 0.0 <= rand < 1.0
    requires forall k :: k in d1 ==> k in d2 && d1[k] <= d2[k]
    ensures AdjustedRatio(RiskRatio(d1), rand) <= AdjustedRatio(RiskRatio(d2), rand)
    ensures PredictCancer(d1, rand).prediction == Malignant ==> PredictCancer(d2, rand).prediction == Malignant
  {
    MoreRiskNeverLowers(d1, d2, rand);
  }

  /** Making one more predicate hold raises the risk ratio by exactly 1/12. */
  lemma OneMoreFactor(d1: Features, d2: Features, i: nat)
    requires i < |RiskPredicates()|
    requires !Holds(d1, RiskPredicates()[i]) && Holds(d2, RiskPredicates()[i])
    requires forall j :: 0 <= j < |RiskPredicates()| && j != i ==>
      Holds(d1, RiskPredicates()[j]) == Holds(d2, RiskPredicates()[j])
    ensures RiskRatio(d2) == RiskRatio(d1) + 1.0 / 12.0
  {
    var f1, f2 := RiskFactors(d1), RiskFactors(d2);
    assert f2 == f1[i := true] by {
      forall j | 0 <= j < 12
        ensures f2[j] == f1[i := true][j]
      {
      }
    }
    KeepTrueRaiseOne(f1, i);
  }

  /**
   * Confidence never exceeds 0.95 (so the 0.99 cap never binds); it is 0.7
   * exactly when the adjusted ratio is within 2/9 of the threshold, and
   * 0.5 + 0.9 * distance otherwise.
   */
  lemma ConfidenceShape(adjusted: real)
    requires 0.0 <= adjusted <= 1.0
    ensures Confidence(adjusted) <= 0.95
    ensures Confidence(adjusted) == 0.7 <==> Abs(adjusted - 0.5) <= 2.0 / 9.0
    ensures Abs(adjusted - 0.5) > 2.0 / 9.0 ==> Confidence(adjusted) == 0.5 + 0.9 * Abs(adjusted - 0.5)
  {
  }

  /** Confidence depends on the distance from the threshold only, not on the side (the label). */
  lemma ConfidenceSymmetric(d: real)
    ensures Confidence(0.5 + d) == Confidence(0.5 - d)
  {
  }

  /** When no risk predicate holds the result is benign, and the adjusted ratio stays below 0.075. */
  lemma NoRiskIsBenign(data: Features, rand: real)
    requires 0.0 <= rand < 1.0
    requires forall i :: 0 <= i < |RiskPredicates()| ==> !Holds(data, RiskPredicates()[i])
    ensures RiskCount(data) == 0
    ensures AdjustedRatio(RiskRatio(data), rand) < 0.075
    ensures PredictCancer(data, rand).prediction == Benign
  {
    KeepTrueExtremes(RiskFactors(data));
  }

  /**
   * When all twelve predicates hold the result is malignant, the adjusted
   * ratio lies in [0.925, 1] and the confidence in [0.8825, 0.95].
   */
  lemma AllRiskIsMalignant(data: Features, rand: real)
    requires 0.0 <= rand < 1.0
    requires forall i :: 0 <= i < |RiskPredicates()| ==> Holds(data, RiskPredicates()[i])
    ensures RiskCount(data) == 12
    ensures 0.925 <= AdjustedRatio(RiskRatio(data), rand) <= 1.0
    ensures PredictCancer(data, rand).prediction == Malignant
    ensures 0.8825 <= PredictCancer(data, rand).confidence <= 0.95
  {
    KeepTrueExtremes(RiskFactors(data));
  }

  /** The form's all-zero defaults make no predicate hold, so they are always benign. */
  lemma DefaultsAreBenign(rand: real)
    requires 0.0 <= rand < 1.0
    ensures RiskCount(DefaultValues()) == 0
    ensures PredictCancer(DefaultValues(), rand).prediction == Benign
  {
    var d := DefaultValues();
    forall i | 0 <= i < |RiskPredicates()|
      ensures !Holds(d, RiskPredicates()[i])
    {
      var p := RiskPredicates()[i];
      assert p.threshold > 0.0;
      if p.feature in d {
        assert d[p.feature] == 0.0;
      }
    }
    NoRiskIsBenign(d, rand);
  }
}
