/** The loaded contents the engine reads: the four model files, the
    defaults table and the SHAP reference means, together with the two
    numeric primitives kept abstract (`Number(string)` and `sigmoid`). */
module Store {

  import opened Wrappers
  import opened Coercion
  import opened JsValues
  import opened Linear
  import opened Isotonic
  import opened ModelSelector

  /** The four model files. The calibrated model is a base logistic
      regression followed by an isotonic curve. */
  datatype ModelStore = ModelStore(
    baseline: LinearModel,
    dropGender: LinearModel,
    reweighted: LinearModel,
    calibratedBase: LinearModel,
    isotonic: Curve)

  /** The logistic regression a canonical id scores with. */
  function ModelOf(store: ModelStore, id: ModelId): LinearModel {
    match id
    case Baseline => store.baseline
    case DropGender => store.dropGender
    case Reweighted => store.reweighted
    case Calibrated => store.calibratedBase
  }

  /** The SHAP reference means: bucket name, then feature name. */
  type ShapMeans = map<string, map<string, real>>

  datatype Engine = Engine(
    store: ModelStore,
    defaults: Defaults,
    shapMeans: ShapMeans,
    parse: NumberParser,
    sigmoid: real -> real)

  /** The model a user-facing name selects has one coefficient per feature. */
  predicate SelectedAligned(store: ModelStore, modelType: string) {
    NormalizeModelType(modelType).Some? ==> Aligned(ModelOf(store, NormalizeModelType(modelType).value))
  }

  /** The model a user-facing name selects has a coefficient for every
      feature. */
  predicate SelectedCovered(store: ModelStore, modelType: string) {
    NormalizeModelType(modelType).Some? ==>
      |ModelOf(store, NormalizeModelType(modelType).value).features|
        <= |ModelOf(store, NormalizeModelType(modelType).value).coef|
  }

  /** When the name selects the calibrated model, its curve can be read. */
  predicate CurveReadable(store: ModelStore, modelType: string) {
    NormalizeModelType(modelType) == Some(Calibrated) ==> WellFormed(store.isotonic)
  }
}
