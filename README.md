# Student dropout prediction engine, in Dafny

This project models the prediction engine of a student-dropout predictor. It has two parts.

**1. The Express server (`server/server.js`).** The model follows the engine's own steps:

- **Model selection.** A user-facing model name is resolved to one of four trained models: `baseline`, `drop_gender`, `reweighted` and `calibrated`. The name is lower-cased, every whitespace run becomes `_`, and the result is looked up in the alias table. This is `normalizeModelType` and `MODEL_TYPE_MAP`.
- **Input coercion.** A loosely typed request object becomes a map over the twelve canonical features. Each feature is read from its underscore property, or else its spaced property. Numbers go through `numOrDefault`. Yes/No answers go through `yesNoTo01`. Anything else falls back to the defaults table.
- **Scoring.**
  - `buildX` builds the feature vector in the order of the model's schema, or fails on a missing feature.
  - The coefficient count is checked against the vector length.
  - `predictLR` is applied: the sigmoid of `dot(coef, x) + intercept`.
  - For the calibrated model, the raw probability then goes through `isotonicMap`. This clamps to the curve's end points and otherwise binary-searches the bracketing segment and interpolates linearly.
- **Explanations.**
  - `getModelParams` picks a model's parameters. `getShapMeanFor` gives its SHAP reference means.
  - `calculateShapContributions` computes each feature's contribution `coef[i] * (x[i] - xRef[i])`, together with the base and output log-odds.
  - `buildGlobalExplanation` ranks a model's features by absolute coefficient.
- **Route logic.**
  - The predict route applies the 0.5 graduation threshold. It computes the predicted class's confidence, clamped to [0, 1]. It sorts the contributions by decreasing magnitude (`Array.prototype.sort` with comparator `|b.shap| - |a.shap|`) and marks each as increasing or decreasing the log-odds.
  - The local-explanation route finds the first positive and the first negative contribution of that sorted list.

**2. The rule-based `predictDropout` scorer (`supabase/functions/predict-dropout/index.ts`).** It starts a mutable score at 0.5 and adds fixed increments for grades, approvals, scholarship, debt and fees. Depending on the model name, it adds a gender term or a gender correction. It clamps the score to [0.05, 0.95] and thresholds it at 0.5.

How each kind of source code is modelled:

- Pure code becomes datatypes and functions.
- `dot` and `isotonicMap` become methods with loops, each proved equal to a specification function.
- The sort becomes an in-place insertion sort on an array. It is proved to compute a stable specification sort, `Sorting.SortDesc`. That sort is in turn proved sorted, a permutation, idempotent and sum-preserving.
- `predictDropout` becomes a method that updates a local score step by step.

Modules, one file each:

- `Wrappers`: Option and Result.
- `JsValues`: JSON values as JavaScript sees them, `??`, `Number`.
- `Coercion`: the features, `yesNoTo01`, `numOrDefault`, `normalizeStudent`.
- `ModelSelector`: the alias table and `normalizeModelType`.
- `Errors`: the engine's error conditions.
- `Store`: the loaded model files, defaults and SHAP means.
- `Linear`: `dot`, `buildX`, `predictLR`.
- `Isotonic`: `isotonicMap` and a linear-search reference calibration.
- `Sorting`: the stable descending sort.
- `Decision`: the threshold, confidence and impact.
- `Explanation`: parameters, SHAP means, contributions, the global explanation.
- `Prediction`: `predictByModel` and the two routes.
- `RuleBasedScorer`: `predictDropout`.

Inputs from outside the engine are parameters of the model, bundled in `Store.Engine`:

- the contents of the four model files;
- the defaults table;
- the SHAP reference means;
- JavaScript's text-to-number conversion (`Number`);
- the sigmoid (`1 / (1 + Math.exp(-z))`).

Two behaviours of the code worth knowing up front:

- **The reference point.** Local explanations always measure contributions against the SHAP means of the model's bucket (`with_gender` or `no_gender`). There is no all-zero reference point.
- **Names that read inherited object members.** `normalizeModelType` returns a non-model value for `"constructor"` and `"__proto__"`. The predict and local-explanation routes still fail, but one call later and with a different message. The global explanation fails with the ordinary unknown-model message, because `getModelParams` gives `undefined` for these names. See Findings.

## Model

| member | source | states |
|---|---|---|
| Coercion.YesNoTo01 | server/server.js:79-84 | "Yes", 1, "1" and true give 1; "No", 0, "0" and false give 0; every other value, and only those, gives undefined |
| JsValues.Coalesce | server/server.js:100 | `a ?? b`: `a` unless it is null or undefined, then `b` |
| JsValues.ToNumber | server/server.js:88 | `Number(v)`: undefined gives NaN, null gives 0, booleans give 0 and 1, a number is itself, and text (or the text of an array or object) goes through the parser |
| Coercion.NumOrDefault | server/server.js:86-90 | undefined, null, "" and a value whose `Number` is not finite give the default; otherwise the result is that number |
| Coercion.FeatureNamed | server/server.js:98-137 | a recognised feature name denotes the feature of that name |
| Coercion.FeatureNamedInverse | server/server.js:98-137 | every canonical feature name is recognised as its own feature |
| Coercion.AllFeaturesListed | server/server.js:98-137 | the list of the twelve keys the object literal builds covers every canonical feature, which is what makes the normalized map total |
| Coercion.NormalizeStudent | server/server.js:93-140 | total on every request object; every feature is present; each numeric feature is `numOrDefault(raw, default)` and each other binary feature `yesNoTo01(raw) ?? default`, where raw is `underscore ?? spaced`; Gender is read from `Gender` alone through its own 0/1 test |
| Coercion.NormalizeReadsOnlyRawField | server/server.js:99-136 | a feature's value depends only on its two properties |
| Coercion.UnderscoreKeyTakesPrecedence | server/server.js:100 | a non-nullish underscore property decides the feature whatever the spaced one holds |
| Coercion.SpacedKeyIsFallback | server/server.js:100 | with the underscore property nullish, the spaced property decides |
| Coercion.FailedCoercionUsesDefault | server/server.js:87-89 | a missing, empty or non-coercible field takes the defaults-table value |
| Coercion.SurrogatesCoerce | server/server.js:80-81 | every yes surrogate gives 1 and every no surrogate gives 0 for each binary feature |
| Coercion.GenderKeptWhenBinary | server/server.js:133-136 | a numeric Gender of 0 or 1 is kept |
| Coercion.GenderTo01 | server/server.js:133-136 | a numeric 0 or 1 is kept; otherwise exactly the yes surrogates give 1, the no surrogates give 0, and anything else gives undefined |
| Coercion.GenderCoercionIsYesNo | server/server.js:133-136 | the Gender special case agrees with `yesNoTo01` on every value |
| Coercion.OmittedUnemploymentRateUsesDefault | server/server.js:123-126 | an absent, null or empty unemployment rate takes the default |
| Coercion.FormInputNumbers | src/components/StudentInputForm.tsx:98-105 | the form's admission grade 120, age 19 and gender 0 are read as given |
| ModelSelector.LowerChar | server/server.js:245 | lower-casing leaves no upper-case letter and keeps every other character |
| ModelSelector.SkipWhitespace | server/server.js:245 | drops exactly the leading whitespace run |
| ModelSelector.ToLower | server/server.js:245 | `toLowerCase`: every ASCII capital becomes its lower-case letter, every other character is kept, and no capital is left |
| ModelSelector.NormalizeModelType | server/server.js:243-247 | a name resolves exactly when it is non-empty and its key is an own key of the table; the model is the one the key is an alias of |
| ModelSelector.ReplaceWhitespaceRuns | server/server.js:245 | `replace(/\s+/g, "_")`: no whitespace is left and the text never grows |
| ModelSelector.ReplaceKeepsNoUpper | server/server.js:245 | the replacement introduces no upper-case letter |
| ModelSelector.ReplaceWithoutWhitespaceIsIdentity | server/server.js:245 | a string without whitespace is unchanged by the replacement |
| ModelSelector.AliasKey | server/server.js:245 | the looked-up key is lower case and has no whitespace |
| ModelSelector.AliasKeyIdempotent | server/server.js:245 | normalizing a key again gives the same key |
| ModelSelector.AliasTableMatchesAliases | server/server.js:232-241 | the table and the per-model alias sets are the same relation, in both directions |
| ModelSelector.ResolvesExactlyToAliases | server/server.js:232-247 | a name resolves to a model if and only if it is non-empty and its key is one of that model's aliases |
| ModelSelector.NormalNameIsItsKey | server/server.js:245 | a lower-case name without whitespace is its own key |
| ModelSelector.NormalAliasResolves | server/server.js:232-247 | an alias in normal form resolves to its model |
| ModelSelector.CanonicalNameResolves | server/server.js:232-247 | each of the four canonical ids resolves to itself |
| ModelSelector.NormalizeIdempotent | server/server.js:243-247 | resolving the key, or the canonical name, of a resolved name gives the same model |
| ModelSelector.CaseDoesNotMatter | server/server.js:245 | a name resolves as its lower-case form does |
| ModelSelector.WhitespaceRunBecomesUnderscore | server/server.js:245 | a name whose lower-case form is two words without whitespace around one whitespace run has the key `word_word` |
| ModelSelector.GenderBlindResolves | server/server.js:232-247 | "Gender Blind" has key "gender_blind" and selects the gender-blind model |
| ModelSelector.ReplaceJoinRun | server/server.js:245 | one whitespace run between two words without whitespace is replaced by `_` |
| ModelSelector.EveryAliasResolves | server/server.js:232-241 | every one of the eight aliases resolves to its model |
| ModelSelector.UnknownNamesResolveToNothing | server/server.js:243-247 | "nonexistent" and "" resolve to no model |
| ModelSelector.NormalizeModelTypeAsWritten | server/server.js:243-247 | the plain property read: an own key gives what the corrected lookup gives, and an own key is found exactly when the corrected lookup succeeds |
| ModelSelector.MembersAreNotAliases | server/server.js:232-241 | no inherited object member is one of the aliases |
| ModelSelector.MemberKeysEscapeAliasTable | server/server.js:246 | as written, a key that names an inherited member reads that member, while the corrected lookup rejects it |
| ModelSelector.ConstructorEscapesAliasTable | server/server.js:246 | as written, "constructor" reads `Object.prototype.constructor`, which is not a model |
| ModelSelector.ProtoEscapesAliasTable | server/server.js:246 | as written, "__proto__" reads `Object.prototype` itself |
| ModelSelector.CapitalizedMembers | server/server.js:245-246 | every other inherited member name has an upper-case letter |
| ModelSelector.OnlyLowerCaseMembersEscape | server/server.js:245-246 | since keys are lower case, only "constructor" and "__proto__" can escape the table |
| Linear.Differences | server/server.js:323 | the termwise differences `coef[i] * (x[i] - xRef[i])` |
| Linear.Dot | server/server.js:53-57 | what `dot` computes: the sum of `a[i] * b[i]` over the indices of `a`, which is 0 for an empty `a`; `Linear.DotLoop` is proved to compute it |
| Linear.DotOfZeroTerms | server/server.js:53-57 | terms with a zero factor add nothing, so a vector whose every term has a zero factor scores zero |
| Linear.DotLoop | server/server.js:53-57 | the loop computes the sum of `a[i] * b[i]` over the indices of `a` |
| Linear.DotReadsPrefix | server/server.js:53-57 | only the first `a.length` entries of `b` are read |
| Linear.DotDifference | server/server.js:316-317 | the difference of two dot products is the sum of the termwise differences |
| Linear.BuildX | server/server.js:143-150 | succeeds if and only if every listed feature is present; the vector follows the schema order; a failure names the first missing feature |
| Linear.BuildXReadsListed | server/server.js:143-150 | the vector depends only on the listed features |
| Linear.PredictLR | server/server.js:153-156 | with a sigmoid into (0, 1), the probability lies in (0, 1) |
| Linear.PredictLRIsSigmoidOfLogOdds | server/server.js:153-156 | the definition of `predictLR` unfolded for a given log-odds value: the probability is the sigmoid of `coef . x + intercept` |
| Isotonic.Lerp | server/server.js:72-75 | the interpolation lies between the two values and meets them at the breakpoints |
| Isotonic.LerpMonotone | server/server.js:72-75 | on a rising segment the interpolation is monotone |
| Isotonic.Search | server/server.js:66-75 | the search ends on an exact hit or on a segment that brackets the input |
| Isotonic.IsotonicValue | server/server.js:60-76 | clamps below the first and above the last breakpoint, and otherwise returns a bracketed value |
| Isotonic.IsotonicMap | server/server.js:60-76 | the binary-search loop computes `IsotonicValue` |
| Isotonic.SegmentFrom | server/server.js:66-71 | finds the first segment whose right end lies above the input |
| Isotonic.SegmentUnique | server/server.js:66-71 | on an ascending curve only one segment brackets the input |
| Isotonic.IsotonicValueIsCalibrate | server/server.js:60-76 | on an ascending curve the binary search equals the linear-search reference calibration |
| Isotonic.CalibrateAtBreakpoint | server/server.js:62-75 | on a strictly ascending curve, the calibration returns the curve's value at every breakpoint |
| Isotonic.CalibrateWithinRange | server/server.js:62-75 | with non-decreasing values, the result lies between the first and last value |
| Isotonic.CalibrateMonotone | server/server.js:60-76 | on a strictly ascending curve with non-decreasing values, the calibration is monotone |
| Sorting.Insert | server/server.js:353-355 | inserting adds exactly one element |
| Sorting.SortDesc | server/server.js:353-355 | the specification sort keeps the length |
| Sorting.SortDescSorted | server/server.js:353-355 | the sorted keys do not increase |
| Sorting.SortDescPermutes | server/server.js:353-355 | the sort is a permutation of its input |
| Sorting.SortDescOfSorted | server/server.js:353-355 | an input already in order is left unchanged |
| Sorting.SortDescIdempotent | server/server.js:353-355 | sorting twice is sorting once |
| Sorting.SortDescKeepsSum | server/server.js:353-355 | sorting keeps every sum over the elements |
| Sorting.ShiftInto | server/server.js:353-355 | the inner loop of the in-place sort inserts `a[i]` into the sorted prefix and leaves the rest of the array unchanged |
| Sorting.SortInPlace | server/server.js:353-355 | the in-place insertion sort computes the specification sort of the array's old contents |
| Sorting.SortedCopy | server/server.js:443-445 | sorting a copy gives the specification sort, which is sorted and a permutation |
| Decision.Clamp | server/server.js:345 | the clamp lies in its range, keeps a value already in range, and maps an out-of-range value to the nearer bound |
| Decision.Label | server/server.js:340 | Graduate if and only if `probGraduate >= 0.5` |
| Decision.Confidence | server/server.js:342-345 | the confidence lies in [0, 1] |
| Decision.ConfidenceOfPredictedClass | server/server.js:342-345 | for a probability, the confidence is the predicted class's probability, and at least 0.5 |
| Decision.ImpactOf | server/server.js:372 | "increases" if and only if the contribution is positive |
| Explanation.ParamsOf | server/server.js:250-289 | each model's features, coefficients, intercept and SHAP bucket as its file gives them; only the calibrated model carries a curve |
| Explanation.GetModelParams | server/server.js:250-289 | parameters exist if and only if the name resolves, and they are those of the resolved model |
| Explanation.ShapBucketMatchesTraining | server/server.js:253-285 | the bucket is "with_gender" exactly for baseline and reweighted |
| Explanation.GetShapMeanFor | server/server.js:291-306 | succeeds if and only if the bucket key is set, the bucket exists and holds the feature; each failure has its own error |
| Explanation.ReferencePoint | server/server.js:314 | succeeds if and only if every feature's mean exists; the mean follows the feature order; a failure is the first feature's error |
| Explanation.Attributions | server/server.js:319-324 | one entry per feature, with its value, its weight and `coef[i] * (x[i] - xRef[i])` |
| Explanation.AttributionsSum | server/server.js:316-324 | the contributions sum to the termwise differences of the two dot products |
| Explanation.Contributions | server/server.js:312-326 | a missing feature fails before a missing mean; on success it gives the attributions, output and base log-odds, and base plus the sum of the contributions equals the output |
| Explanation.CalculateShapContributions | server/server.js:308-327 | an unknown name fails with UnknownModel; otherwise gives the contributions of the resolved model's parameters |
| Explanation.FirstPositive | server/server.js:447 | none if and only if no contribution is positive; otherwise the earliest positive contribution |
| Explanation.FirstNegative | server/server.js:448 | none if and only if no contribution is negative; otherwise the earliest negative contribution |
| Explanation.TopPositiveIsLargest | server/server.js:443-447 | on a list sorted by magnitude, the first positive contribution is the largest |
| Explanation.TopNegativeIsSmallest | server/server.js:443-448 | on a list sorted by magnitude, the first negative contribution is the most negative |
| Explanation.ImportanceEntries | server/server.js:391-396 | one entry per feature, with its coefficient and absolute coefficient |
| Explanation.BuildGlobalExplanation | server/server.js:385-406 | fails if and only if the name is unknown; otherwise gives the model's entries sorted by non-increasing importance, a permutation with `importance == |weight|` |
| Prediction.PredictWith | server/server.js:165-215 | a missing feature or a coefficient-count mismatch fails; otherwise gives the sigmoid probability, passed through the curve for the calibrated model |
| Prediction.PredictByModel | server/server.js:159-218 | an unknown name fails with UnknownModel; otherwise scores with the resolved model |
| Prediction.PredictionImpliesAligned | server/server.js:171-175 | a successful prediction means the selected model has one coefficient per feature |
| Prediction.PredictionIsProbability | server/server.js:153-215 | with a sigmoid into (0, 1) and curve values in [0, 1], the prediction lies in [0, 1] |
| Prediction.ExplanationMatchesPrediction | server/server.js:203-215 | the explanation's output value is the log-odds the model's probability is the sigmoid of, before any calibration |
| Prediction.SameSelection | server/server.js:338 | names that select the same model give the same prediction and contributions |
| Prediction.RequestedModel | server/server.js:332 | an omitted `model_type` selects "reweighted"; a given one is used as it is |
| Prediction.NormalizeAgreesExceptGender | server/server.js:93-140 | requests that differ only in Gender normalize alike on every other feature |
| Prediction.GenderBlindIgnoresGender | server/server.js:179-189 | a model whose schema lacks Gender scores requests that differ only in Gender alike |
| Prediction.SchemaIgnoresGender | server/server.js:143-150 | a schema that does not list Gender builds the same vector, or the same error, for two requests that differ only in Gender |
| Prediction.PredictRoute | server/server.js:330-372 | an unknown name fails with UnknownModel; for a known name, a scoring error is returned first, then a contribution error, and the route succeeds exactly when both calls do; on success the label and the clamped confidence follow from `probGraduate`, and the contributions are the sorted SHAP values with their impacts, a permutation whose sum with the base value is the output value |
| Prediction.Respond | server/server.js:340-372 | the label is Graduate if and only if `probGraduate >= 0.5`; the confidence is clamped to [0, 1]; the features are the contributions sorted by magnitude, a permutation that keeps the additivity; each carries impact "increases" exactly when it is positive |
| Prediction.LocalExplanationRoute | server/server.js:430-448 | an unknown name fails with UnknownModel; for a known name it succeeds exactly when the contributions do, and otherwise returns their error; on success the base and output values are the model's, the contributions are sorted and additive, and topPositive and topNegative are the first positive and first negative sorted contributions (`find`), which are the largest positive and the most negative |
| RuleBasedScorer.DropoutScore | supabase/functions/predict-dropout/index.ts:95-113 | the score lies in [0.05, 0.95] and is the raw score when that is in range |
| RuleBasedScorer.PredictDropout | supabase/functions/predict-dropout/index.ts:51-119 | Dropout if and only if the clamped score exceeds 0.5; the confidence is the score or its complement, and lies in [0.5, 0.95] |
| RuleBasedScorer.ClampKeepsDecision | supabase/functions/predict-dropout/index.ts:113-115 | the clamp never changes the decision |
| RuleBasedScorer.ScoreReadsOnlyScoredFields | supabase/functions/predict-dropout/index.ts:88-111 | only grades, approvals, scholarship, debt, fees and gender affect the score |
| RuleBasedScorer.GenderIgnoredByOtherModels | supabase/functions/predict-dropout/index.ts:97-111 | for every name other than baseline, calibrated and reweighted, gender does not matter |
| RuleBasedScorer.DropGenderIgnoresGender | supabase/functions/predict-dropout/index.ts:97-111 | drop_gender ignores gender |
| RuleBasedScorer.GenderTermOnlyForScoringModels | supabase/functions/predict-dropout/index.ts:97-99 | the gender term appears only for baseline and calibrated, where gender 1 adds 0.24 over gender 0 |
| RuleBasedScorer.CorrectionOnlyForReweightedGenderOne | supabase/functions/predict-dropout/index.ts:109-111 | the correction applies only to reweighted with gender 1, lowering the raw score by 0.15 |
| RuleBasedScorer.BaselineIsCalibrated | supabase/functions/predict-dropout/index.ts:97-111 | baseline and calibrated score every student alike |
| RuleBasedScorer.ClampMonotone | supabase/functions/predict-dropout/index.ts:113 | the clamp is monotone |
| RuleBasedScorer.ScoreMonotone | supabase/functions/predict-dropout/index.ts:101-113 | a student at least as risky on every factor scores at least as high |
| RuleBasedScorer.DebtNeverLowersScore | supabase/functions/predict-dropout/index.ts:106 | becoming a debtor never lowers the score |
| RuleBasedScorer.UnpaidFeesNeverLowerScore | supabase/functions/predict-dropout/index.ts:107 | unpaid fees never lower the score |
| RuleBasedScorer.LosingScholarshipNeverLowersScore | supabase/functions/predict-dropout/index.ts:105 | losing the scholarship never lowers the score |

## Left out

- HTTP handling, request and response envelopes, status codes, CORS, the `/defaults` and metrics routes, the `/explanations/global` wrapper route, the Deno handler around `predictDropout`, and the loading of the model and SHAP files are not modelled. The loaded contents and the defaults table are parameters.
- `sigmoid` and `Math.exp` are a parameter. Arithmetic is on exact reals, so IEEE-754 rounding, NaN and infinities are not modelled.
- `Number` on text is a parameter of type `string -> Option<real>`, where `None` means NaN or an infinity. An array or object is converted through its string form.
- `toLowerCase` is modelled for the ASCII letters only; other letters are kept as they are. `\s` is modelled with its full set of whitespace characters.
- A `model_type` that is not a string (a number, `null`, an object) is not modelled. The predict route's name is an `Option<string>`, where `None` is the omitted field that defaults to "reweighted".
- Prediction.PredictByModel: requires a readable curve (as many values as breakpoints, at least one) when the calibrated model is selected. The source reads the curve without checks, and a malformed curve gives NaN or undefined.
- Explanation.CalculateShapContributions: requires the selected model to have one coefficient per feature. The source has no such check here and computes NaN contributions from missing coefficients.
- Explanation.BuildGlobalExplanation: requires a coefficient for every feature. With a shorter coefficient list the source would give the missing weights as `undefined` and their importance as NaN.
- Coercion.NormalizeStudent: requires a complete defaults table. The source reads `defaults[...]`, which is undefined for an absent entry; the model assumes every default is a number.
- Feature names in a model file that are inherited object members (`"constructor" in S`) and inherited SHAP bucket or mean names are not modelled. The model reads only own keys there.
- A SHAP mean of `null` and the `Number` conversion of a stored mean are not modelled: means are numbers.
- Sorting.SortInPlace: stability is built into the specification sort, `Sorting.SortDesc`, which inserts after equal keys. It is not stated separately as a property.
- Error messages are modelled by their kind and the name they carry, not as text. For a name whose key reads an inherited member (see Findings), the model reports `UnknownModel` with the name as given. The source's predict and local-explanation routes instead fail later, in `predictByModel` or `calculateShapContributions`, with a message naming `String(value)`: "function Object() { [native code] }" for "constructor" and "[object Object]" for "__proto__".
- The summary text, `formatFeature` and the other presentation fields of the local-explanation route are not modelled.
- The unused `features` array of `predictDropout` has no counterpart.
- RuleBasedScorer.PredictDropout: the fields are reals, so NaN or missing fields are not modelled.
- RuleBasedScorer.PredictDropout: the score is summed over exact reals, while the source sums IEEE-754 doubles. This changes one decision. Take grades 12 and 8, approvals 2 and 5, scholarship 1, debtor 0 and fees up to date 1, with any model name that has no gender term and no correction ("drop_gender" or an unrecognised name, either gender) or with "reweighted" and gender 0. The increments sum to exactly 0.5, which the model labels Graduate with confidence 0.5. The source's chain of `+=` gives 0.5000000000000001, which it labels Dropout with that confidence. Other inputs whose exact score is 0.5 also give exactly 0.5 in doubles, so there the source labels Graduate with confidence 0.5 as the model does. An example is "drop_gender" with grades 12 and 12, approvals 5 and 1, scholarship 0, debtor 1 and fees up to date 1.
- Isotonic.IsotonicMap: the tail computes the interpolation through the `Isotonic.Lerp` function rather than with locals `x0`, `x1`, `y0`, `y1` and `t`; the arithmetic is the same.

## Findings

| source | as written | input that shows it | evidently intended | confidence | as-written member | corrected member |
|---|---|---|---|---|---|---|
| server/server.js:232-247 | `MODEL_TYPE_MAP[key]` is a plain property read on an object literal, so keys that name inherited members of `Object.prototype` return those members instead of `undefined` | `normalizeModelType("constructor")` (or "Constructor") returns `Object`, and `normalizeModelType("__proto__")` returns `Object.prototype`. The routes' `!canonicalType` guard lets these through. The predict and local-explanation routes still fail, one call later, in `predictByModel` or `calculateShapContributions`, and only the error message changes. The global explanation is unaffected: `getModelParams` gives `undefined` and it fails with the ordinary unknown-model message | `normalizeModelType` returns one of the four ids or `undefined`, so an unknown name is rejected at the guard | not executed | ModelSelector.NormalizeModelTypeAsWritten, ModelSelector.ConstructorEscapesAliasTable | ModelSelector.NormalizeModelType, ModelSelector.ResolvesExactlyToAliases |
