# Breast-cancer classifier front end: the decision logic, in Dafny

The front end collects 30 named cell-nucleus measurements and turns them into
a label ("malignant" or "benign") with a confidence. It has two ways to do it,
and this project models both:

- **The local heuristic scorer `predictCancer`** (`prediction.dfy`, module
  `Prediction`). It runs twelve strict threshold tests on named measurements
  and divides the number that hold by 12. It adds one uniform noise term from
  `Math.random()` and clamps the sum to [0, 1]. The label is "malignant" when
  this adjusted ratio is at least 0.5. The confidence is
  `0.5 + 0.9 * |adjusted - 0.5|`, clamped to [0.7, 0.99]. The random draw
  is the parameter `rand`, with `0 <= rand < 1`. This makes the scorer a
  function: the same features and the same draw always give the same result.
- **The remote-response adapter and request state of `analyzeData`**
  (`resultdisplay.dfy`). Module `ResultText` holds the pure string work on the
  service's free-text `result`:
  - a case-sensitive `includes('Malignant')`;
  - the leftmost match of `/Confidence: ([\d.]+)/`;
  - `parseFloat` of the captured run, or of `'0'` when nothing matches.

  Module `ResultDisplay` holds the component's three pieces of state, `result`,
  `isLoading` and `error`, as the class `ResultPanel`. The network exchange is
  an input to it.

`form.dfy` holds the data the form supplies: the 30 feature names, the
all-zero defaults and the result record.

Measurements are `real`. A feature map is `map<string, real>`. A key absent
from the map makes its predicate false, as `undefined > 15` is false in
JavaScript, so the scorer has no precondition on its keys. `parseFloat`'s
result is `JsNumber = NaN | Finite(value)`, because a run such as `"."` gives
NaN. The response is `Exchange = NetworkFailure | Reply(ok, result)`.
`result` is `None` when the body is not JSON or has no string `result` field.
In the source every such reply throws inside the `try`, so modelling them all
as `None` is exact.
A number, an object or `null` throws at the `includes` call. An array passes
`includes` but has no `match` method, so it throws one line later.

Three consequences of the code are worth stating plainly:

- The 0.99 cap on the confidence never binds. The adjusted ratio lies in
  [0, 1], so the confidence is at most 0.95 (`ConfidenceShape`). With all
  twelve predicates holding it lies in [0.8825, 0.95] (`AllRiskIsMalignant`).
- The noise lies in [-0.075, 0.075) and never reaches +0.075, because
  `Math.random()` is below 1 (`Noise`).
- A missing feature is not an error. It reads as a false predicate, and so
  does the model (`Holds`).

The substring test also classifies "Not Malignant" as malignant
(`CaseSensitiveExample`).

## Model

| member | source | states |
|---|---|---|
| BreastCancerForm.FeatureKeys | frontend/src/components/BreastCancerForm.tsx:15-44 | the 30 schema names in form order, pairwise distinct |
| BreastCancerForm.DefaultValues | frontend/src/components/BreastCancerForm.tsx:62-93 | the defaults have exactly the 30 schema fields as keys, each zero |
| Prediction.RiskPredicates | frontend/src/utils/prediction.ts:12-23 | twelve tests, each with a positive threshold |
| Prediction.RiskFeaturesDistinct | frontend/src/utils/prediction.ts:12-23 | no feature is tested twice |
| Prediction.Holds | frontend/src/utils/prediction.ts:12-23 | a test fails when its feature is absent, and when the value is at or below the threshold (strict `>`) |
| Prediction.OneMeasurementOneFactor | frontend/src/utils/prediction.ts:10-24 | changing one measurement (its value or its presence) changes at most one risk factor |
| Prediction.RiskFactors | frontend/src/utils/prediction.ts:10-24 | exactly 12 factors; factor i holds iff feature i is present and strictly above its threshold |
| Prediction.RiskFeaturesAreFormFields | frontend/src/utils/prediction.ts:12-23 | each of the 12 tested features is one of the 30 form fields |
| Prediction.KeepTrue | frontend/src/utils/prediction.ts:27 | `filter(Boolean)` keeps only true entries and is never longer than its input |
| Prediction.KeepTrueMonotone | frontend/src/utils/prediction.ts:27 | turning factors from false to true never lowers the count |
| Prediction.KeepTrueRaiseOne | frontend/src/utils/prediction.ts:27 | turning one false factor true raises the count by exactly one |
| Prediction.KeepTrueExtremes | frontend/src/utils/prediction.ts:27 | the count is 0 iff no factor holds, and the full length iff all hold |
| Prediction.RiskCount | frontend/src/utils/prediction.ts:27 | the count is at most 12; it is 0 iff no test holds and 12 iff all hold |
| Prediction.RiskRatio | frontend/src/utils/prediction.ts:27-30 | the risk ratio lies in [0, 1] |
| Prediction.OnlyRiskFeaturesMatter | frontend/src/utils/prediction.ts:10-30 | two maps that agree on the 12 risk features get the same result; the other 18 features have no influence |
| Prediction.OneMoreFactor | frontend/src/utils/prediction.ts:27-30 | making one more predicate hold raises the risk ratio by exactly 1/12 |
| Prediction.Noise | frontend/src/utils/prediction.ts:34-37 | for a draw in [0, 1) the noise lies in [-0.075, 0.075) |
| Prediction.AdjustedRatio | frontend/src/utils/prediction.ts:35-38 | the adjusted ratio lies in [0, 1] and equals ratio + noise whenever that sum is already in range |
| Prediction.AdjustedMonotone | frontend/src/utils/prediction.ts:35-38 | for a fixed draw, a higher ratio never gives a lower adjusted ratio |
| Prediction.Classify | frontend/src/utils/prediction.ts:41-42 | at or above 0.5 malignant (inclusive), below 0.5 benign |
| Prediction.PredictCancer | frontend/src/utils/prediction.ts:6-53 | confidence in [0.7, 0.99]; "malignant" iff the adjusted ratio is >= 0.5 (inclusive threshold) |
| Prediction.LabelByCount | frontend/src/utils/prediction.ts:30-42 | 5 or fewer predicates: always benign; 7 or more: always malignant; exactly 6: malignant iff the draw is >= 0.5 |
| Prediction.MoreRiskNeverLowers | frontend/src/utils/prediction.ts:27-42 | for a fixed draw, more predicates holding never lowers the adjusted ratio and never turns malignant into benign |
| Prediction.HigherMeasurementsNeverLower | frontend/src/utils/prediction.ts:10-42 | raising measurements (keeping every key) never lowers the adjusted ratio or turns malignant into benign |
| Prediction.Confidence | frontend/src/utils/prediction.ts:45-47 | confidence lies in [0.7, 0.99] for any adjusted ratio |
| Prediction.ConfidenceShape | frontend/src/utils/prediction.ts:45-47 | confidence is at most 0.95; it is 0.7 iff the distance to 0.5 is at most 2/9, and 0.5 + 0.9 * distance otherwise |
| Prediction.ConfidenceSymmetric | frontend/src/utils/prediction.ts:45-47 | confidence depends only on the distance from 0.5, not on the side of the threshold |
| Prediction.NoRiskIsBenign | frontend/src/utils/prediction.ts:10-42 | with no predicate holding: count 0, adjusted ratio below 0.075, always benign |
| Prediction.AllRiskIsMalignant | frontend/src/utils/prediction.ts:10-47 | with all 12 holding: adjusted ratio in [0.925, 1], always malignant, confidence in [0.8825, 0.95] |
| Prediction.DefaultsAreBenign | frontend/src/utils/prediction.ts:10-42 | the form's all-zero defaults make no predicate hold and are benign for every draw |
| ResultText.IncludesIffOccurs | frontend/src/components/ResultDisplay.tsx:39 | the `includes` scan succeeds iff the pattern occurs at some position |
| ResultText.Includes | frontend/src/components/ResultDisplay.tsx:39 | the empty pattern is always included; an included pattern is no longer than the text |
| ResultText.LabelOf | frontend/src/components/ResultDisplay.tsx:39 | the label is malignant iff "Malignant" occurs somewhere in the text |
| ResultText.NotIncludedWithoutFirstChar | frontend/src/components/ResultDisplay.tsx:39 | a text without the pattern's first letter does not include the pattern |
| ResultText.CaseSensitiveExample | frontend/src/components/ResultDisplay.tsx:39 | "malignant" gives benign (case-sensitive); "Not Malignant" gives malignant |
| ResultText.FindMatch | frontend/src/components/ResultDisplay.tsx:40 | returns the leftmost position where "Confidence: " is followed by a `[\d.]` character; no earlier position matches; None iff no position matches |
| ResultText.RunLength | frontend/src/components/ResultDisplay.tsx:40 | the captured run is all `[\d.]` and maximal (greedy) |
| ResultText.Capture | frontend/src/components/ResultDisplay.tsx:40 | a captured group is non-empty and made of `[\d.]` only |
| ResultText.DigitCount | frontend/src/components/ResultDisplay.tsx:40 | counts exactly the leading digits |
| ResultText.DigitCountOf | frontend/src/components/ResultDisplay.tsx:40 | digits followed by a non-digit have exactly that many leading digits |
| ResultText.ParseFloat | frontend/src/components/ResultDisplay.tsx:40 | `parseFloat` of a `[\d.]` run is NaN or a non-negative number |
| ResultText.ParseFloatNaN | frontend/src/components/ResultDisplay.tsx:40 | `parseFloat` of a `[\d.]` run is NaN iff the run is empty or a dot not followed by a digit |
| ResultText.ParseFloatDecimal | frontend/src/components/ResultDisplay.tsx:40 | `whole.fraction`, followed by nothing or a further dot, parses to its decimal value (longest numeric prefix) |
| ResultText.ParseFloatInteger | frontend/src/components/ResultDisplay.tsx:40 | a digit string parses to its integer value |
| ResultText.ConfidenceOf | frontend/src/components/ResultDisplay.tsx:40 | with no match anywhere the confidence is 0 |
| ResultText.ConfidenceFromFirstMatch | frontend/src/components/ResultDisplay.tsx:40 | the confidence is `parseFloat` of the greedy run after the first match |
| ResultText.UncheckedRangeExample | frontend/src/components/ResultDisplay.tsx:40 | "Confidence: 87" gives 87: the value is not range-checked |
| ResultText.LongestPrefixExample | frontend/src/components/ResultDisplay.tsx:40 | "Confidence: 0.9.1" gives 0.9 |
| ResultText.ParseResult | frontend/src/components/ResultDisplay.tsx:38-41 | malignant iff "Malignant" occurs; confidence 0 without a match; a finite confidence is never negative |
| ResultText.BenignExample | frontend/src/components/ResultDisplay.tsx:38-41 | "Benign, Confidence: 0.92" gives benign, 0.92 |
| ResultText.MalignantExample | frontend/src/components/ResultDisplay.tsx:38-41 | "Malignant tumor detected, Confidence: 0.81" gives malignant, 0.81 |
| ResultDisplay.Outcome | frontend/src/components/ResultDisplay.tsx:26-41 | the try block yields a result iff the response arrived, was ok and carried a string `result`; that result is the parsed label and confidence |
| ResultDisplay.ResultPanel.constructor | frontend/src/components/ResultDisplay.tsx:19-21 | starts with no result, not loading, no error |
| ResultDisplay.ResultPanel.StartAnalysis | frontend/src/components/ResultDisplay.tsx:24-25 | loading starts and the error is cleared; the result is kept |
| ResultDisplay.ResultPanel.FinishAnalysis | frontend/src/components/ResultDisplay.tsx:26-46 | a success sets the result; a failure keeps the old result and sets the fixed message; loading ends either way |
| ResultDisplay.ResultPanel.AnalyzeData | frontend/src/components/ResultDisplay.tsx:23-47 | after a call: not loading; on success the new result and no error; on failure the old result and "Failed to analyze data. Please try again." |

## Left out

- The training and serving code (`backend/app.py`, `app.py`): floating-point machine learning, foreign libraries and I/O.
- `fetch`, HTTP and JSON decoding: the exchange is an input (`Exchange`). The request body (`JSON.stringify(formData)`) and the endpoint URL are not modelled.
- IEEE-754 arithmetic: every quantity is an exact `real`, so rounding in `riskCount / 12`, the noise and the confidence is not captured.
- LabelByCount: the exactly-6 case ("malignant iff the draw is >= 0.5") holds over exact reals. In double arithmetic, draws just below 0.5, such as 0.5 − 2⁻⁵³ and 0.5 − 2⁻⁵², round to an adjusted ratio of 0.5 and give malignant.
- The distribution of `Math.random()`: only its range [0, 1) is used. Statements "in expectation" are not modelled.
- `parseFloat` is modelled only on strings of digits and dots: the regex capture and the `'0'` default. Signs, exponents, whitespace and "Infinity" cannot occur there.
- React's batching of state updates and re-rendering: the setters are modelled as immediate field assignments. The two suspension points, `await fetch(...)` and `await response.json()`, both come before any state change inside the `try`, so the single split between `StartAnalysis` and `FinishAnalysis` is exact.
- The JSX render of both result components, the `disabled={isLoading}` button guard, the form's zod coercion, its 1.5 s delay, and the page's show/hide toggle: presentation only.
- Determinism of the scorer for a fixed draw holds by construction, since `PredictCancer` is a function. It has no lemma of its own.
