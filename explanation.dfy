/** Local and global explanations: `getModelParams`, `getShapMeanFor`,
    `calculateShapContributions` and `buildGlobalExplanation`, and the
    choice of the strongest positive and negative contributions. */
module Explanation {

  import opened Wrappers
  import opened Errors
  import opened Coercion
  import opened Linear
  import opened Isotonic
  import opened ModelSelector
  import opened Store
  import opened Sorting

  /** What `getModelParams` returns. For the calibrated model these are the
      base model's coefficients: explanations are in the base model's
      log-odds, before calibration. */
  datatype ModelParams = ModelParams(
    features: seq<string>,
    coef: seq<real>,
    intercept: real,
    shapMeanKey: string,
    isotonic: Option<Curve>)

  /** The SHAP bucket of a model: the gender-blind and calibrated models
      were trained without Gender. */
  function ShapMeanKeyOf(id: ModelId): string {
    match id
    case Baseline => "with_gender"
    case DropGender => "no_gender"
    case Reweighted => "with_gender"
    case Calibrated => "no_gender"
  }

  /** The parameters `getModelParams` returns for a canonical id. */
  function ParamsOf(store: ModelStore, id: ModelId): (r: ModelParams)
    ensures var m := ModelOf(store, id);
      && r.features == m.features && r.coef == m.coef && r.intercept == m.intercept
      && r.shapMeanKey == ShapMeanKeyOf(id)
      && (r.isotonic.Some? <==> id == Calibrated)
  {
    match id
    case Baseline =>
      ModelParams(store.baseline.features, store.baseline.coef, store.baseline.intercept, "with_gender", None)
    case DropGender =>
      ModelParams(store.dropGender.features, store.dropGender.coef, store.dropGender.intercept, "no_gender", None)
    case Reweighted =>
      ModelParams(store.reweighted.features, store.reweighted.coef, store.reweighted.intercept, "with_gender", None)
    case Calibrated =>
      ModelParams(store.calibratedBase.features, store.calibratedBase.coef, store.calibratedBase.intercept,
                  "no_gender", Some(store.isotonic))
  }

  /** `getModelParams`: nothing for a name that resolves to no model. */
  function GetModelParams(store: ModelStore, modelType: string): (r: Option<ModelParams>)
    ensures r.Some? <==> NormalizeModelType(modelType).Some?
    ensures r.Some? ==> r.value == ParamsOf(store, NormalizeModelType(modelType).value)
  {
    match NormalizeModelType(modelType)
    case None => None
    case Some(id) => Some(ParamsOf(store, id))
  }

  /** Only the models that score Gender read the bucket with Gender. */
  lemma ShapBucketMatchesTraining(store: ModelStore, modelType: string)
    requires NormalizeModelType(modelType).Some?
    ensures GetModelParams(store, modelType).value.shapMeanKey == "with_gender"
        <==> NormalizeModelType(modelType).value in {Baseline, Reweighted}
  {
  }

  /** `getShapMeanFor`: the reference mean of one feature in the model's
      bucket, or the error naming what is missing. */
  function GetShapMeanFor(means: ShapMeans, p: ModelParams, feature: string): (r: Result<real, EngineError>)
    ensures r.Ok? <==> p.shapMeanKey != "" && p.shapMeanKey in means && feature in means[p.shapMeanKey]
    ensures r.Ok? ==> r.value == means[p.shapMeanKey][feature]
    ensures p.shapMeanKey == "" ==> r == Err(MissingShapKey(feature))
    ensures p.shapMeanKey != "" && p.shapMeanKey !in means ==> r == Err(MissingShapBucket(p.shapMeanKey))
    ensures p.shapMeanKey in means && p.shapMeanKey != "" && feature !in means[p.shapMeanKey] ==>
      r == Err(MissingShapMean(feature, p.shapMeanKey))
  {
    if p.shapMeanKey == "" then Err(MissingShapKey(feature))
    else if p.shapMeanKey !in means then Err(MissingShapBucket(p.shapMeanKey))
    else if feature !in means[p.shapMeanKey] then Err(MissingShapMean(feature, p.shapMeanKey))
    else Ok(means[p.shapMeanKey][feature])
  }

  /** `features.map((f) => getShapMeanFor(params, f))`: the reference point,
      or the error of the first feature whose mean is missing. */
  function ReferencePoint(means: ShapMeans, p: ModelParams, names: seq<string>): (r: Result<seq<real>, EngineError>)
    ensures r.Ok? <==> forall i :: 0 <= i < |names| ==> GetShapMeanFor(means, p, names[i]).Ok?
    ensures r.Ok? ==> |r.value| == |names|
    ensures r.Ok? ==> forall i :: 0 <= i < |names| ==> r.value[i] == GetShapMeanFor(means, p, names[i]).value
    ensures r.Err? ==>
      exists i :: (0 <= i < |names| && GetShapMeanFor(means, p, names[i]) == Err(r.error)
                   && forall j :: 0 <= j < i ==> GetShapMeanFor(means, p, names[j]).Ok?)
  {
    if names == [] then Ok([])
    else
      var first := GetShapMeanFor(means, p, names[0]);
      if first.Err? then Err(first.error)
      else
        match ReferencePoint(means, p, names[1..])
        case Err(e) =>
          ghost var i :| 0 <= i < |names[1..]| && GetShapMeanFor(means, p, names[1..][i]) == Err(e)
            && forall j :: 0 <= j < i ==> GetShapMeanFor(means, p, names[1..][j]).Ok?;
          assert forall j :: 0 <= j < i + 1 ==> GetShapMeanFor(means, p, names[j]).Ok? by {
            forall j | 0 <= j < i + 1 ensures GetShapMeanFor(means, p, names[j]).Ok? {
              if j > 0 {
                assert names[j] == names[1..][j - 1];
              }
            }
          }
          Err(e)
        case Ok(rest) =>
          assert forall i :: 1 <= i < |names| ==> names[i] == names[1..][i - 1];
          Ok([first.value] + rest)
  }

  /** One entry of `shapValues`. */
  datatype Attribution = Attribution(feature: string, value: real, weight: real, shap: real)

  function Shap(c: Attribution): real {
    c.shap
  }

  function Abs(v: real): real {
    if v < 0.0 then -v else v
  }

  /** The sort key of both routes: `Math.abs(c.shap)`. */
  function AbsShap(c: Attribution): real {
    Abs(c.shap)
  }

  /** The entries of `shapValues`: each feature's value, its coefficient and
      its contribution `coef[i] * (x[i] - xRef[i])`. */
  function Attributions(names: seq<string>, coef: seq<real>, x: seq<real>, xRef: seq<real>): (r: seq<Attribution>)
    requires |names| == |coef| == |x| == |xRef|
    ensures |r| == |names|
    ensures forall i :: 0 <= i < |names| ==>
      r[i] == Attribution(names[i], x[i], coef[i], coef[i] * (x[i] - xRef[i]))
  {
    seq(|names|, i requires 0 <= i < |names| => Attribution(names[i], x[i], coef[i], coef[i] * (x[i] - xRef[i])))
  }

  /** The contributions sum to the termwise differences of the two dot
      products. */
  lemma {:induction false} AttributionsSum(names: seq<string>, coef: seq<real>, x: seq<real>, xRef: seq<real>)
    requires |names| == |coef| == |x| == |xRef|
    ensures SumBy(Attributions(names, coef, x, xRef), Shap) == SumBy(Differences(coef, x, xRef), Id)
  {
    if names != [] {
      var n := |names| - 1;
      var a, a' := Attributions(names, coef, x, xRef), Attributions(names[..n], coef[..n], x[..n], xRef[..n]);
      var d, d' := Differences(coef, x, xRef), Differences(coef[..n], x[..n], xRef[..n]);
      AttributionsSum(names[..n], coef[..n], x[..n], xRef[..n]);
      assert a[..n] == a' by {
        forall i | 0 <= i < n ensures a[..n][i] == a'[i] {
          assert names[..n][i] == names[i] && coef[..n][i] == coef[i];
          assert x[..n][i] == x[i] && xRef[..n][i] == xRef[i];
        }
      }
      assert d[..n] == d' by {
        forall i | 0 <= i < n ensures d[..n][i] == d'[i] {
          assert coef[..n][i] == coef[i] && x[..n][i] == x[i] && xRef[..n][i] == xRef[i];
        }
      }
      assert Shap(a[n]) == d[n];
      assert SumBy(a, Shap) == SumBy(a', Shap) + Shap(a[n]);
      assert SumBy(d, Id) == SumBy(d', Id) + Id(d[n]);
    }
  }

  /** What `calculateShapContributions` returns. */
  datatype ShapExplanation = ShapExplanation(values: seq<Attribution>, baseValue: real, outputValue: real)

  /** The body of `calculateShapContributions` once the parameters are
      chosen: the contributions of each feature of the log-odds against the
      SHAP reference point. `x` is built before the reference point, so a
      missing feature is reported before a missing mean. */
  function Contributions(e: Engine, p: ModelParams, raw: JsValues.RawObject): (r: Result<ShapExplanation, EngineError>)
    requires DefaultsComplete(e.defaults)
    requires |p.coef| == |p.features|
    ensures
      var x := BuildX(p.features, NormalizeStudent(raw, e.defaults, e.parse));
      var xRef := ReferencePoint(e.shapMeans, p, p.features);
      && (x.Err? ==> r == Err(x.error))
      && (x.Ok? && xRef.Err? ==> r == Err(xRef.error))
      && (r.Ok? <==> x.Ok? && xRef.Ok?)
      && (r.Ok? ==>
            && r.value.values == Attributions(p.features, p.coef, x.value, xRef.value)
            && r.value.outputValue == Dot(p.coef, x.value) + p.intercept
            && r.value.baseValue == Dot(p.coef, xRef.value) + p.intercept)
    ensures r.Ok? ==> r.value.baseValue + SumBy(r.value.values, Shap) == r.value.outputValue
  {
    var s := NormalizeStudent(raw, e.defaults, e.parse);
    var x :- BuildX(p.features, s);
    var xRef :- ReferencePoint(e.shapMeans, p, p.features);
    var outputValue := Dot(p.coef, x) + p.intercept;
    var baseValue := Dot(p.coef, xRef) + p.intercept;
    var values := Attributions(p.features, p.coef, x, xRef);
    DotDifference(p.coef, x, xRef);
    AttributionsSum(p.features, p.coef, x, xRef);
    Ok(ShapExplanation(values, baseValue, outputValue))
  }

  /** `calculateShapContributions`: the parameters of the model the name
      selects, then their contributions. */
  function CalculateShapContributions(e: Engine, modelType: string, raw: JsValues.RawObject)
    : (r: Result<ShapExplanation, EngineError>)
    requires DefaultsComplete(e.defaults)
    requires SelectedAligned(e.store, modelType)
    ensures NormalizeModelType(modelType).None? ==> r == Err(UnknownModel(modelType))
    ensures NormalizeModelType(modelType).Some? ==> r == Contributions(e, GetModelParams(e.store, modelType).value, raw)
  {
    match GetModelParams(e.store, modelType)
    case None => Err(UnknownModel(modelType))
    case Some(p) => Contributions(e, p, raw)
  }

  /** The first contribution satisfying `c.shap > 0`, in order. */
  function FirstPositive(s: seq<Attribution>): (r: Option<Attribution>)
    ensures r.None? <==> forall i :: 0 <= i < |s| ==> s[i].shap <= 0.0
    ensures r.Some? ==> exists i :: (0 <= i < |s| && s[i] == r.value && r.value.shap > 0.0
                                     && forall j :: 0 <= j < i ==> s[j].shap <= 0.0)
  {
    if s == [] then None
    else if s[0].shap > 0.0 then Some(s[0])
    else
      var r := FirstPositive(s[1..]);
      assert forall i :: 1 <= i < |s| ==> s[i] == s[1..][i - 1];
      if r.Some? then
        ghost var i :| 0 <= i < |s[1..]| && s[1..][i] == r.value && r.value.shap > 0.0
          && forall j :: 0 <= j < i ==> s[1..][j].shap <= 0.0;
        assert s[i + 1] == r.value;
        r
      else r
  }

  /** The first contribution satisfying `c.shap < 0`, in order. */
  function FirstNegative(s: seq<Attribution>): (r: Option<Attribution>)
    ensures r.None? <==> forall i :: 0 <= i < |s| ==> s[i].shap >= 0.0
    ensures r.Some? ==> exists i :: (0 <= i < |s| && s[i] == r.value && r.value.shap < 0.0
                                     && forall j :: 0 <= j < i ==> s[j].shap >= 0.0)
  {
    if s == [] then None
    else if s[0].shap < 0.0 then Some(s[0])
    else
      var r := FirstNegative(s[1..]);
      assert forall i :: 1 <= i < |s| ==> s[i] == s[1..][i - 1];
      if r.Some? then
        ghost var i :| 0 <= i < |s[1..]| && s[1..][i] == r.value && r.value.shap < 0.0
          && forall j :: 0 <= j < i ==> s[1..][j].shap >= 0.0;
        assert s[i + 1] == r.value;
        r
      else r
  }

  /** On contributions sorted by magnitude, the first positive one is the
      largest positive one. */
  lemma TopPositiveIsLargest(s: seq<Attribution>)
    requires SortedDesc(s, AbsShap) && FirstPositive(s).Some?
    ensures forall c | c in s && c.shap > 0.0 :: c.shap <= FirstPositive(s).value.shap
  {
    var top := FirstPositive(s).value;
    var i :| 0 <= i < |s| && s[i] == top && top.shap > 0.0 && forall j :: 0 <= j < i ==> s[j].shap <= 0.0;
    forall c | c in s && c.shap > 0.0 ensures c.shap <= top.shap {
      var k :| 0 <= k < |s| && s[k] == c;
      assert i <= k;
      if i < k {
        assert AbsShap(s[i]) >= AbsShap(s[k]);
      }
    }
  }

  /** On contributions sorted by magnitude, the first negative one is the
      most negative one. */
  lemma TopNegativeIsSmallest(s: seq<Attribution>)
    requires SortedDesc(s, AbsShap) && FirstNegative(s).Some?
    ensures forall c | c in s && c.shap < 0.0 :: FirstNegative(s).value.shap <= c.shap
  {
    var top := FirstNegative(s).value;
    var i :| 0 <= i < |s| && s[i] == top && top.shap < 0.0 && forall j :: 0 <= j < i ==> s[j].shap >= 0.0;
    forall c | c in s && c.shap < 0.0 ensures top.shap <= c.shap {
      var k :| 0 <= k < |s| && s[k] == c;
      assert i <= k;
      if i < k {
        assert AbsShap(s[i]) >= AbsShap(s[k]);
      }
    }
  }

  // ---- Global explanation --------------------------------------------------

  /** One entry of the global explanation. */
  datatype Importance = Importance(feature: string, weight: real, importance: real)

  function ImportanceOf(c: Importance): real {
    c.importance
  }

  /** The unsorted entries: one per feature, weighted by its coefficient. */
  function ImportanceEntries(names: seq<string>, coef: seq<real>): (r: seq<Importance>)
    requires |names| <= |coef|
    ensures |r| == |names|
    ensures forall i :: 0 <= i < |names| ==> r[i] == Importance(names[i], coef[i], Abs(coef[i]))
  {
    seq(|names|, i requires 0 <= i < |names| => Importance(names[i], coef[i], Abs(coef[i])))
  }

  datatype GlobalExplanation = GlobalExplanation(modelType: ModelId, features: seq<Importance>)

  /** `buildGlobalExplanation`: the model's features by decreasing absolute
      coefficient. */
  method BuildGlobalExplanation(store: ModelStore, modelType: string) returns (r: Result<GlobalExplanation, EngineError>)
    requires SelectedCovered(store, modelType)
    ensures NormalizeModelType(modelType).None? <==> r.Err?
    ensures r.Err? ==> r.error == UnknownModel(modelType)
    ensures r.Ok? ==>
      var id := NormalizeModelType(modelType).value;
      var m := ModelOf(store, id);
      && r.value.modelType == id
      && r.value.features == SortDesc(ImportanceEntries(m.features, m.coef), ImportanceOf)
      && |r.value.features| == |m.features|
      && SortedDesc(r.value.features, ImportanceOf)
      && multiset(r.value.features) == multiset(ImportanceEntries(m.features, m.coef))
      && forall c | c in r.value.features :: c.importance == Abs(c.weight) >= 0.0
  {
    var params := GetModelParams(store, modelType);
    if params.None? {
      return Err(UnknownModel(modelType));
    }
    var p := params.value;
    var entries := ImportanceEntries(p.features, p.coef);
    var sorted := SortedCopy(entries, ImportanceOf);
    assert forall c | c in sorted :: c in multiset(entries);
    r := Ok(GlobalExplanation(NormalizeModelType(modelType).value, sorted));
  }
}
