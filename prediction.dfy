/** Scoring by model name, and the decision and ordering logic of the
    predict and local-explanation routes. */
module Prediction {

  import opened Wrappers
  import opened Errors
  import opened JsValues
  import opened Coercion
  import opened Linear
  import opened Isotonic
  import opened ModelSelector
  import opened Store
  import opened Sorting
  import opened Decision
  import opened Explanation

  /** The body of `predictByModel` once the model is chosen: normalize the
      student, build the model's vector, check the coefficient count, score,
      and calibrate for the calibrated model. */
  function PredictWith(e: Engine, id: ModelId, raw: RawObject): (r: Result<real, EngineError>)
    requires DefaultsComplete(e.defaults)
    requires id == Calibrated ==> WellFormed(e.store.isotonic)
    ensures
      var m := ModelOf(e.store, id);
      var x := BuildX(m.features, NormalizeStudent(raw, e.defaults, e.parse));
      && (x.Err? ==> r == Err(x.error))
      && (x.Ok? && !Aligned(m) ==> r == Err(SchemaMismatch(|m.coef|, |m.features|)))
      && (r.Ok? <==> x.Ok? && Aligned(m))
      && (r.Ok? ==>
            r.value == (if id == Calibrated then IsotonicValue(e.store.isotonic, PredictLR(m, x.value, e.sigmoid))
                        else PredictLR(m, x.value, e.sigmoid)))
  {
    var s := NormalizeStudent(raw, e.defaults, e.parse);
    var m := ModelOf(e.store, id);
    var x :- BuildX(m.features, s);
    if |m.coef| != |x| then Err(SchemaMismatch(|m.coef|, |x|))
    else
      var pRaw := PredictLR(m, x, e.sigmoid);
      if id == Calibrated then Ok(IsotonicValue(e.store.isotonic, pRaw)) else Ok(pRaw)
  }

  /** `predictByModel`: resolve the name, then score with the model it
      selects. */
  function PredictByModel(e: Engine, modelType: string, raw: RawObject): (r: Result<real, EngineError>)
    requires DefaultsComplete(e.defaults)
    requires CurveReadable(e.store, modelType)
    ensures NormalizeModelType(modelType).None? ==> r == Err(UnknownModel(modelType))
    ensures NormalizeModelType(modelType).Some? ==> r == PredictWith(e, NormalizeModelType(modelType).value, raw)
  {
    match NormalizeModelType(modelType)
    case None => Err(UnknownModel(modelType))
    case Some(id) => PredictWith(e, id, raw)
  }

  /** A successful prediction implies the selected model is aligned, which
      is what the explanation needs. */
  lemma PredictionImpliesAligned(e: Engine, modelType: string, raw: RawObject)
    requires DefaultsComplete(e.defaults) && CurveReadable(e.store, modelType)
    requires PredictByModel(e, modelType, raw).Ok?
    ensures SelectedAligned(e.store, modelType)
  {
  }

  /** With a sigmoid into (0, 1) and a curve whose values are probabilities,
      every prediction is a probability. */
  lemma PredictionIsProbability(e: Engine, modelType: string, raw: RawObject)
    requires DefaultsComplete(e.defaults) && CurveReadable(e.store, modelType)
    requires forall z :: 0.0 < e.sigmoid(z) < 1.0
    requires forall i :: 0 <= i < |e.store.isotonic.y| ==> 0.0 <= e.store.isotonic.y[i] <= 1.0
    requires PredictByModel(e, modelType, raw).Ok?
    ensures 0.0 <= PredictByModel(e, modelType, raw).value <= 1.0
  {
    var id := NormalizeModelType(modelType).value;
    if id == Calibrated {
      var c := e.store.isotonic;
      var m := ModelOf(e.store, id);
      var x := BuildX(m.features, NormalizeStudent(raw, e.defaults, e.parse));
      var p := PredictLR(m, x.value, e.sigmoid);
      var n := |c.x|;
      if c.x[0] < p < c.x[n - 1] {
        var k :| 0 <= k < n - 1 && Bracketed(c.x, c.y, p, k, IsotonicValue(c, p));
        assert 0.0 <= c.y[k] <= 1.0 && 0.0 <= c.y[k + 1] <= 1.0;
      }
    }
  }

  /** The local explanation is in the log-odds the prediction is made from:
      the sigmoid of its output value is the uncalibrated prediction. */
  lemma ExplanationMatchesPrediction(e: Engine, id: ModelId, raw: RawObject)
    requires DefaultsComplete(e.defaults) && (id == Calibrated ==> WellFormed(e.store.isotonic))
    requires PredictWith(e, id, raw).Ok?
    requires Contributions(e, ParamsOf(e.store, id), raw).Ok?
    ensures var out := Contributions(e, ParamsOf(e.store, id), raw).value.outputValue;
      var p := PredictWith(e, id, raw).value;
      if id == Calibrated then p == IsotonicValue(e.store.isotonic, e.sigmoid(out))
      else p == e.sigmoid(out)
  {
    var m := ModelOf(e.store, id);
    var params := ParamsOf(e.store, id);
    var x := BuildX(m.features, NormalizeStudent(raw, e.defaults, e.parse));
    assert params.features == m.features && params.coef == m.coef && params.intercept == m.intercept;
    assert x.Ok? && Aligned(m);
    assert |x.value| == |m.coef|;
    var out := Dot(m.coef, x.value) + m.intercept;
    assert Contributions(e, params, raw).value.outputValue == out;
    PredictLRIsSigmoidOfLogOdds(m, x.value, e.sigmoid, out);
  }

  /** Both functions read the name only through the model it selects. */
  lemma SameSelection(e: Engine, a: string, b: string, raw: RawObject)
    requires DefaultsComplete(e.defaults)
    requires NormalizeModelType(a).Some? && NormalizeModelType(a) == NormalizeModelType(b)
    ensures CurveReadable(e.store, a) ==> PredictByModel(e, a, raw) == PredictByModel(e, b, raw)
    ensures SelectedAligned(e.store, a) ==>
      CalculateShapContributions(e, a, raw) == CalculateShapContributions(e, b, raw)
  {
  }

  /** Whether two requests agree on every field but Gender. */
  ghost predicate AgreeExceptGender(raw1: RawObject, raw2: RawObject) {
    forall k :: k != "Gender" ==> Get(raw1, k) == Get(raw2, k)
  }

  lemma NormalizeAgreesExceptGender(raw1: RawObject, raw2: RawObject, defaults: Defaults, parse: NumberParser, f: Feature)
    requires DefaultsComplete(defaults) && AgreeExceptGender(raw1, raw2) && f != Gender
    ensures NormalizeStudent(raw1, defaults, parse)[f] == NormalizeStudent(raw2, defaults, parse)[f]
  {
    assert UnderscoreKey(f) != "Gender" && Name(f) != "Gender" by {
      match f
      case AdmissionGrade => case AgeAtEnrollment => case ScholarshipHolder =>
      case TuitionUpToDate => case Displaced => case SpecialNeeds => case Debtor =>
      case International => case UnemploymentRate => case InflationRate => case Gdp =>
    }
    NormalizeReadsOnlyRawField(raw1, raw2, defaults, parse, f);
  }

  /** A model whose schema does not list Gender scores two students who
      differ only in Gender alike. */
  lemma GenderBlindIgnoresGender(e: Engine, modelType: string, raw1: RawObject, raw2: RawObject)
    requires DefaultsComplete(e.defaults) && CurveReadable(e.store, modelType)
    requires NormalizeModelType(modelType).Some?
    requires "Gender" !in ModelOf(e.store, NormalizeModelType(modelType).value).features
    requires AgreeExceptGender(raw1, raw2)
    ensures PredictByModel(e, modelType, raw1) == PredictByModel(e, modelType, raw2)
  {
    var id := NormalizeModelType(modelType).value;
    var m := ModelOf(e.store, id);
    SchemaIgnoresGender(m.features, raw1, raw2, e.defaults, e.parse);
    assert PredictByModel(e, modelType, raw1) == PredictWith(e, id, raw1);
    assert PredictByModel(e, modelType, raw2) == PredictWith(e, id, raw2);
  }

  /** A schema without Gender builds the same vector for two requests that
      differ only in Gender. */
  lemma SchemaIgnoresGender(names: seq<string>, raw1: RawObject, raw2: RawObject,
                            defaults: Defaults, parse: NumberParser)
    requires DefaultsComplete(defaults) && "Gender" !in names && AgreeExceptGender(raw1, raw2)
    ensures BuildX(names, NormalizeStudent(raw1, defaults, parse)) == BuildX(names, NormalizeStudent(raw2, defaults, parse))
  {
    var s1 := NormalizeStudent(raw1, defaults, parse);
    var s2 := NormalizeStudent(raw2, defaults, parse);
    forall i | 0 <= i < |names| && Present(names[i], s1)
      ensures Lookup(names[i], s1) == Lookup(names[i], s2)
    {
      var f := FeatureNamed(names[i]).value;
      assert Name(f) == names[i];
      NormalizeAgreesExceptGender(raw1, raw2, defaults, parse, f);
    }
    BuildXReadsListed(names, s1, s2);
  }

  // ---- The predict route ---------------------------------------------------

  /** The body of a successful predict response. */
  datatype PredictResponse = PredictResponse(
    prediction: Prediction,
    confidence: real,
    probGraduate: real,
    modelType: ModelId,
    baseValue: real,
    outputValue: real,
    features: seq<Attribution>,
    impacts: seq<Impact>)

  /** The model name a request selects: `model_type` defaults to
      "reweighted" when the body omits it. */
  function RequestedModel(modelType: Option<string>): (name: string)
    ensures modelType.None? ==> name == "reweighted"
    ensures modelType.Some? ==> name == modelType.value
  {
    modelType.GetOr("reweighted")
  }

  /** The predict route: resolve, predict by the canonical name, decide,
      explain, and sort the contributions by decreasing magnitude. */
  method PredictRoute(e: Engine, modelType: Option<string>, raw: RawObject) returns (r: Result<PredictResponse, EngineError>)
    requires DefaultsComplete(e.defaults) && CurveReadable(e.store, RequestedModel(modelType))
    ensures NormalizeModelType(RequestedModel(modelType)).None? ==> r == Err(UnknownModel(RequestedModel(modelType)))
    ensures
      var name := RequestedModel(modelType);
      var prob := PredictByModel(e, name, raw);
      NormalizeModelType(name).Some? ==>
        && (prob.Err? ==> r == Err(prob.error))
        && (prob.Ok? ==>
              && SelectedAligned(e.store, name)
              && var shap := CalculateShapContributions(e, name, raw);
                 && (r.Ok? <==> shap.Ok?)
                 && (shap.Err? ==> r == Err(shap.error)))
    ensures r.Ok? ==>
      var name := RequestedModel(modelType);
      && NormalizeModelType(name) == Some(r.value.modelType)
      && PredictByModel(e, name, raw) == Ok(r.value.probGraduate)
      && (r.value.prediction == Graduate <==> r.value.probGraduate >= 0.5)
      && r.value.confidence == Confidence(r.value.probGraduate)
      && 0.0 <= r.value.confidence <= 1.0
      && SelectedAligned(e.store, name)
      && var shap := CalculateShapContributions(e, name, raw);
         && shap.Ok?
         && r.value.features == SortDesc(shap.value.values, AbsShap)
         && SortedDesc(r.value.features, AbsShap)
         && multiset(r.value.features) == multiset(shap.value.values)
         && r.value.baseValue == shap.value.baseValue
         && r.value.outputValue == shap.value.outputValue
         && r.value.baseValue + SumBy(r.value.features, Shap) == r.value.outputValue
         && |r.value.impacts| == |r.value.features|
         && forall i :: 0 <= i < |r.value.features| ==> r.value.impacts[i] == ImpactOf(r.value.features[i].shap)
  {
    var name := RequestedModel(modelType);
    var resolved := NormalizeModelType(name);
    if resolved.None? {
      return Err(UnknownModel(name));
    }
    var id := resolved.value;
    var canonical := CanonicalName(id);
    NormalizeIdempotent(name);
    SameSelection(e, canonical, name, raw);
    var prob := PredictByModel(e, canonical, raw);
    assert prob == PredictByModel(e, name, raw);
    if prob.Err? {
      return Err(prob.error);
    }
    PredictionImpliesAligned(e, canonical, raw);
    var shap := CalculateShapContributions(e, canonical, raw);
    if shap.Err? {
      return Err(shap.error);
    }
    var response := Respond(id, prob.value, shap.value);
    r := Ok(response);
  }

  /** The success half of the predict route: the decision on
      `probGraduate`, and the contributions sorted by decreasing magnitude,
      each reported with its impact. */
  method Respond(id: ModelId, probGraduate: real, shap: ShapExplanation) returns (resp: PredictResponse)
    requires shap.baseValue + SumBy(shap.values, Shap) == shap.outputValue
    ensures resp.modelType == id && resp.probGraduate == probGraduate
    ensures resp.prediction == Graduate <==> probGraduate >= 0.5
    ensures resp.confidence == Confidence(probGraduate) && 0.0 <= resp.confidence <= 1.0
    ensures resp.features == SortDesc(shap.values, AbsShap)
    ensures SortedDesc(resp.features, AbsShap) && multiset(resp.features) == multiset(shap.values)
    ensures resp.baseValue == shap.baseValue && resp.outputValue == shap.outputValue
    ensures resp.baseValue + SumBy(resp.features, Shap) == resp.outputValue
    ensures |resp.impacts| == |resp.features|
    ensures forall i :: 0 <= i < |resp.features| ==> resp.impacts[i] == ImpactOf(resp.features[i].shap)
  {
    var sorted := SortedCopy(shap.values, AbsShap);
    SortDescKeepsSum(shap.values, AbsShap, Shap);
    var impacts := seq(|sorted|, i requires 0 <= i < |sorted| => ImpactOf(sorted[i].shap));
    resp := PredictResponse(Label(probGraduate), Confidence(probGraduate), probGraduate, id,
                            shap.baseValue, shap.outputValue, sorted, impacts);
  }

  // ---- The local-explanation route -----------------------------------------

  datatype LocalExplanation = LocalExplanation(
    modelType: ModelId,
    baseValue: real,
    outputValue: real,
    contribs: seq<Attribution>,
    topPositive: Option<Attribution>,
    topNegative: Option<Attribution>)

  /** The local-explanation route: the sorted contributions and the
      strongest contribution in each direction. */
  method LocalExplanationRoute(e: Engine, modelType: string, raw: RawObject) returns (r: Result<LocalExplanation, EngineError>)
    requires DefaultsComplete(e.defaults) && SelectedAligned(e.store, modelType)
    ensures NormalizeModelType(modelType).None? ==> r == Err(UnknownModel(modelType))
    ensures
      var shap := CalculateShapContributions(e, modelType, raw);
      NormalizeModelType(modelType).Some? ==>
        && (r.Ok? <==> shap.Ok?)
        && (shap.Err? ==> r == Err(shap.error))
    ensures r.Ok? ==>
      var shap := CalculateShapContributions(e, modelType, raw);
      && NormalizeModelType(modelType) == Some(r.value.modelType)
      && shap.Ok?
      && r.value.baseValue == shap.value.baseValue
      && r.value.outputValue == shap.value.outputValue
      && r.value.contribs == SortDesc(shap.value.values, AbsShap)
      && r.value.topPositive == FirstPositive(r.value.contribs)
      && r.value.topNegative == FirstNegative(r.value.contribs)
      && multiset(r.value.contribs) == multiset(shap.value.values)
      && r.value.baseValue + SumBy(r.value.contribs, Shap) == r.value.outputValue
      && (r.value.topPositive.Some? ==>
            (r.value.topPositive.value in shap.value.values
             && forall c | c in shap.value.values && c.shap > 0.0 :: c.shap <= r.value.topPositive.value.shap))
      && (r.value.topPositive.None? <==> forall c | c in shap.value.values :: c.shap <= 0.0)
      && (r.value.topNegative.Some? ==>
            (r.value.topNegative.value in shap.value.values
             && forall c | c in shap.value.values && c.shap < 0.0 :: r.value.topNegative.value.shap <= c.shap))
      && (r.value.topNegative.None? <==> forall c | c in shap.value.values :: c.shap >= 0.0)
  {
    var resolved := NormalizeModelType(modelType);
    if resolved.None? {
      return Err(UnknownModel(modelType));
    }
    var id := resolved.value;
    var canonical := CanonicalName(id);
    NormalizeIdempotent(modelType);
    SameSelection(e, canonical, modelType, raw);
    var shap := CalculateShapContributions(e, canonical, raw);
    if shap.Err? {
      return Err(shap.error);
    }
    var values := shap.value.values;
    var sorted := SortedCopy(values, AbsShap);
    SortDescKeepsSum(values, AbsShap, Shap);
    var topPositive := FirstPositive(sorted);
    var topNegative := FirstNegative(sorted);
    assert forall c :: c in values <==> c in sorted by {
      assert forall c :: c in values <==> c in multiset(values);
    }
    if topPositive.Some? {
      TopPositiveIsLargest(sorted);
    }
    if topNegative.Some? {
      TopNegativeIsSmallest(sorted);
    }
    r := Ok(LocalExplanation(id, shap.value.baseValue, shap.value.outputValue, sorted, topPositive, topNegative));
  }
}
