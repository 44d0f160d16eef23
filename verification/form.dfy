/** Option, as the source's `T | null` and optional chaining use it. */
module Wrappers {
  datatype Option<+T> = None | Some(value: T)
}

/**
 * The data the breast-cancer form hands to the scorer: the 30 named
 * measurements of the form schema, their all-zero defaults, and the
 * shape of a detection result.
 */
module BreastCancerForm {

  /** A measurement map, keyed by feature name; JavaScript numbers are modelled as reals. */
  type Features = map<string, real>

  /** The two labels a result can carry ("malignant" | "benign"). */
  datatype Label = Malignant | Benign

  /** `CancerDetectionResult`: a label and a confidence. */
  datatype DetectionResult = DetectionResult(prediction: Label, confidence: real)

  /** The 30 feature names of the form schema, in form order; no name appears twice. */
  function FeatureKeys(): (keys: seq<string>)
    ensures |keys| == 30
    ensures forall i, j :: 0 <= i < j < |keys| ==> keys[i] != keys[j]
  {
    [ "mean_radius", "mean_texture", "mean_perimeter", "mean_area",
      "mean_smoothness", "mean_compactness", "mean_concavity",
      "mean_concave_points", "mean_symmetry", "mean_fractal_dimension",
      "radius_error", "texture_error", "perimeter_error", "area_error",
      "smoothness_error", "compactness_error", "concavity_error",
      "concave_points_error", "symmetry_error", "fractal_dimension_error",
      "worst_radius", "worst_texture", "worst_perimeter", "worst_area",
      "worst_smoothness", "worst_compactness", "worst_concavity",
      "worst_concave_points", "worst_symmetry", "worst_fractal_dimension" ]
  }

  /** The form's default values: every one of the 30 features set to zero. */
  function DefaultValues(): (d: Features)
    ensures forall k :: k in d <==> k in FeatureKeys()
    ensures forall k :: k in d ==> d[k] == 0.0
  {
    map k | k in FeatureKeys() :: 0.0
  }
}
