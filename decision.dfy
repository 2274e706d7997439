/** The decision rule of the predict route: the 0.5 threshold, the
    confidence of the predicted class and its clamp to [0, 1]. */
module Decision {

  datatype Prediction = Graduate | Dropout

  /** `Math.min(hi, Math.max(lo, v))`. */
  function Clamp(lo: real, hi: real, v: real): (r: real)
    requires lo <= hi
    ensures lo <= r <= hi
    ensures lo <= v <= hi ==> r == v
    ensures v < lo ==> r == lo
    ensures hi < v ==> r == hi
  {
    if v < lo then lo else if hi < v then hi else v
  }

  /** `probGraduate >= 0.5 ? "Graduate" : "Dropout"`. */
  function Label(probGraduate: real): (r: Prediction)
    ensures r == Graduate <==> probGraduate >= 0.5
  {
    if probGraduate >= 0.5 then Graduate else Dropout
  }

  /** The probability of the predicted class, clamped to [0, 1]. */
  function Confidence(probGraduate: real): (c: real)
    ensures 0.0 <= c <= 1.0
  {
    var confidence := if Label(probGraduate) == Graduate then probGraduate else 1.0 - probGraduate;
    Clamp(0.0, 1.0, confidence)
  }

  /** For a probability, the clamp changes nothing: the confidence is the
      probability of the predicted class, and it is at least one half. */
  lemma ConfidenceOfPredictedClass(probGraduate: real)
    requires 0.0 <= probGraduate <= 1.0
    ensures Label(probGraduate) == Graduate ==> Confidence(probGraduate) == probGraduate
    ensures Label(probGraduate) == Dropout ==> Confidence(probGraduate) == 1.0 - probGraduate
    ensures Confidence(probGraduate) >= 0.5
  {
  }

  /** Whether a contribution raises or lowers the log-odds of graduating. */
  datatype Impact = Increases | Decreases

  /** `c.shap > 0 ? "increases" : "decreases"`: a zero contribution is
      reported as decreasing. */
  function ImpactOf(shap: real): (r: Impact)
    ensures r == Increases <==> shap > 0.0
  {
    if shap > 0.0 then Increases else Decreases
  }
}
