/** The errors the engine throws, one constructor per distinct message. */
module Errors {

  datatype EngineError =
    /** `Unknown model_type "..."`. */
    | UnknownModel(modelType: string)
    /** `Missing feature "..." after normalization`. */
    | MissingFeature(feature: string)
    /** `Model weights/feature length mismatch (coef=..., features=...)`. */
    | SchemaMismatch(coefCount: nat, featureCount: nat)
    /** `SHAP mean key missing for feature "..."`. */
    | MissingShapKey(feature: string)
    /** `Missing SHAP mean bucket "..."`. */
    | MissingShapBucket(bucket: string)
    /** `Missing SHAP mean value for feature "..." in bucket "..."`. */
    | MissingShapMean(feature: string, bucket: string)
}
