/** The rule-based scorer of the prediction edge function: a dropout score
    built from fixed increments on a handful of the student's fields,
    clamped to [0.05, 0.95] and thresholded at 0.5. */
module RuleBasedScorer {

  import opened Decision

  /** The request's `student_data`: every field is a number. */
  datatype StudentData = StudentData(
    maritalStatus: real,
    applicationMode: real,
    applicationOrder: real,
    course: real,
    attendance: real,
    previousQualification: real,
    nationality: real,
    mothersQualification: real,
    fathersQualification: real,
    mothersOccupation: real,
    fathersOccupation: real,
    displaced: real,
    educationalSpecialNeeds: real,
    debtor: real,
    tuitionFeesUpToDate: real,
    gender: real,
    scholarshipHolder: real,
    ageAtEnrollment: real,
    international: real,
    units1stSemCredited: real,
    units1stSemEnrolled: real,
    units1stSemEvaluations: real,
    units1stSemApproved: real,
    units1stSemGrade: real,
    units1stSemWithoutEvaluations: real,
    units2ndSemCredited: real,
    units2ndSemEnrolled: real,
    units2ndSemEvaluations: real,
    units2ndSemApproved: real,
    units2ndSemGrade: real,
    units2ndSemWithoutEvaluations: real,
    unemploymentRate: real,
    inflationRate: real,
    gdp: real)

  /** The models whose score carries the symmetric gender term. */
  predicate ScoresGender(modelType: string) {
    modelType == "baseline" || modelType == "calibrated"
  }

  /** The model whose score carries the gender-1 correction. */
  predicate CorrectsGender(modelType: string) {
    modelType == "reweighted"
  }

  /** The symmetric gender term: +0.12 for gender 1, -0.12 otherwise. */
  function GenderTerm(d: StudentData, modelType: string): real {
    if ScoresGender(modelType) then (if d.gender == 1.0 then 0.12 else -0.12) else 0.0
  }

  /** The increments for grades, approvals, scholarship, debt and fees. */
  function RecordTerm(d: StudentData): real {
    (if d.units1stSemGrade < 10.0 then 0.15 else -0.10)
    + (if d.units2ndSemGrade < 10.0 then 0.18 else -0.12)
    + (if d.units1stSemApproved < 3.0 then 0.10 else -0.08)
    + (if d.units2ndSemApproved < 3.0 then 0.12 else -0.10)
    + (if d.scholarshipHolder == 0.0 then 0.08 else -0.08)
    + (if d.debtor == 1.0 then 0.10 else 0.0)
    + (if d.tuitionFeesUpToDate == 0.0 then 0.12 else 0.0)
  }

  /** The gender-1 correction of the reweighted model. */
  function CorrectionTerm(d: StudentData, modelType: string): real {
    if CorrectsGender(modelType) && d.gender == 1.0 then -0.15 else 0.0
  }

  /** The dropout score before the clamp. */
  function RawScore(d: StudentData, modelType: string): real {
    0.5 + GenderTerm(d, modelType) + RecordTerm(d) + CorrectionTerm(d, modelType)
  }

  /** The final dropout score. */
  function DropoutScore(d: StudentData, modelType: string): (s: real)
    ensures 0.05 <= s <= 0.95
    ensures 0.05 <= RawScore(d, modelType) <= 0.95 ==> s == RawScore(d, modelType)
  {
    Clamp(0.05, 0.95, RawScore(d, modelType))
  }

  /** `predictDropout`: accumulates the score in a local, clamps it, and
      derives the label and its confidence from it. The `features` array
      of the original is never read and has no counterpart here. */
  method PredictDropout(data: StudentData, modelType: string) returns (prediction: Prediction, confidence: real)
    ensures prediction == Dropout <==> DropoutScore(data, modelType) > 0.5
    ensures prediction == Dropout ==> confidence == DropoutScore(data, modelType)
    ensures prediction == Graduate ==> confidence == 1.0 - DropoutScore(data, modelType)
    ensures 0.5 <= confidence <= 0.95
  {
    var grade1 := data.units1stSemGrade;
    var grade2 := data.units2ndSemGrade;
    var approved1 := data.units1stSemApproved;
    var approved2 := data.units2ndSemApproved;
    var scholarship := data.scholarshipHolder;
    var gender := data.gender;

    var dropoutScore := 0.5;
    if modelType == "baseline" || modelType == "calibrated" {
      dropoutScore := dropoutScore + (if gender == 1.0 then 0.12 else -0.12);
    }
    ghost var afterGender := dropoutScore;
    dropoutScore := dropoutScore + (if grade1 < 10.0 then 0.15 else -0.10);
    dropoutScore := dropoutScore + (if grade2 < 10.0 then 0.18 else -0.12);
    dropoutScore := dropoutScore + (if approved1 < 3.0 then 0.10 else -0.08);
    dropoutScore := dropoutScore + (if approved2 < 3.0 then 0.12 else -0.10);
    dropoutScore := dropoutScore + (if scholarship == 0.0 then 0.08 else -0.08);
    dropoutScore := dropoutScore + (if data.debtor == 1.0 then 0.10 else 0.0);
    dropoutScore := dropoutScore + (if data.tuitionFeesUpToDate == 0.0 then 0.12 else 0.0);
    assert dropoutScore == afterGender + RecordTerm(data);
    if modelType == "reweighted" && gender == 1.0 {
      dropoutScore := dropoutScore - 0.15;
    }
    assert dropoutScore == RawScore(data, modelType);

    // Math.max(0.05, Math.min(0.95, dropoutScore))
    dropoutScore := Clamp(0.05, 0.95, dropoutScore);

    prediction := if dropoutScore > 0.5 then Dropout else Graduate;
    confidence := if dropoutScore > 0.5 then dropoutScore else 1.0 - dropoutScore;
  }

  // ---- Properties of the score ----------------------------------------------

  /** The clamp never changes the decision: the final score is above one
      half exactly when the unclamped one is. */
  lemma ClampKeepsDecision(d: StudentData, modelType: string)
    ensures DropoutScore(d, modelType) > 0.5 <==> RawScore(d, modelType) > 0.5
  {
  }

  /** Only the grades, approvals, scholarship, debt, fees and gender fields
      (and the model name) enter the score. */
  lemma ScoreReadsOnlyScoredFields(d1: StudentData, d2: StudentData, modelType: string)
    requires d1.units1stSemGrade == d2.units1stSemGrade && d1.units2ndSemGrade == d2.units2ndSemGrade
    requires d1.units1stSemApproved == d2.units1stSemApproved && d1.units2ndSemApproved == d2.units2ndSemApproved
    requires d1.scholarshipHolder == d2.scholarshipHolder && d1.debtor == d2.debtor
    requires d1.tuitionFeesUpToDate == d2.tuitionFeesUpToDate && d1.gender == d2.gender
    ensures DropoutScore(d1, modelType) == DropoutScore(d2, modelType)
  {
  }

  /** With a model that neither scores nor corrects gender (drop_gender, or
      any name the scorer does not know) gender does not matter. */
  lemma GenderIgnoredByOtherModels(d: StudentData, modelType: string, g: real)
    requires !ScoresGender(modelType) && !CorrectsGender(modelType)
    ensures DropoutScore(d.(gender := g), modelType) == DropoutScore(d, modelType)
  {
    assert RecordTerm(d.(gender := g)) == RecordTerm(d);
  }

  /** drop_gender is one of those models. */
  lemma DropGenderIgnoresGender(d: StudentData, g: real)
    ensures DropoutScore(d.(gender := g), "drop_gender") == DropoutScore(d, "drop_gender")
  {
    GenderIgnoredByOtherModels(d, "drop_gender", g);
  }

  /** The symmetric term is there only for baseline and calibrated, where
      gender 1 raises the unclamped score by 0.24 over any other gender. */
  lemma GenderTermOnlyForScoringModels(d: StudentData, modelType: string)
    ensures GenderTerm(d, modelType) != 0.0 <==> ScoresGender(modelType)
    ensures ScoresGender(modelType) ==>
      RawScore(d.(gender := 1.0), modelType) == RawScore(d.(gender := 0.0), modelType) + 0.24
  {
  }

  /** The correction is there only for reweighted with gender 1, where it
      lowers the unclamped score by 0.15 against the same student scored by
      a gender-blind name. */
  lemma CorrectionOnlyForReweightedGenderOne(d: StudentData, modelType: string)
    ensures CorrectionTerm(d, modelType) != 0.0 <==> CorrectsGender(modelType) && d.gender == 1.0
    ensures d.gender == 1.0 ==> RawScore(d, "reweighted") == RawScore(d, "drop_gender") - 0.15
    ensures d.gender != 1.0 ==> DropoutScore(d, "reweighted") == DropoutScore(d, "drop_gender")
  {
  }

  /** baseline and calibrated score every student alike. */
  lemma BaselineIsCalibrated(d: StudentData)
    ensures DropoutScore(d, "baseline") == DropoutScore(d, "calibrated")
  {
  }

  lemma ClampMonotone(u: real, v: real)
    requires u <= v
    ensures Clamp(0.05, 0.95, u) <= Clamp(0.05, 0.95, v)
  {
  }

  /** `a` is at least as risky as `b`: every increment `b` earns, `a`
      earns too, and their gender and model terms agree. */
  predicate AtLeastAsRisky(a: StudentData, b: StudentData) {
    && a.gender == b.gender
    && (b.units1stSemGrade < 10.0 ==> a.units1stSemGrade < 10.0)
    && (b.units2ndSemGrade < 10.0 ==> a.units2ndSemGrade < 10.0)
    && (b.units1stSemApproved < 3.0 ==> a.units1stSemApproved < 3.0)
    && (b.units2ndSemApproved < 3.0 ==> a.units2ndSemApproved < 3.0)
    && (b.scholarshipHolder == 0.0 ==> a.scholarshipHolder == 0.0)
    && (b.debtor == 1.0 ==> a.debtor == 1.0)
    && (b.tuitionFeesUpToDate == 0.0 ==> a.tuitionFeesUpToDate == 0.0)
  }

  /** The score is monotone in the risk factors. */
  lemma ScoreMonotone(a: StudentData, b: StudentData, modelType: string)
    requires AtLeastAsRisky(a, b)
    ensures DropoutScore(a, modelType) >= DropoutScore(b, modelType)
  {
    assert RecordTerm(a) >= RecordTerm(b);
    ClampMonotone(RawScore(b, modelType), RawScore(a, modelType));
  }

  /** Becoming a debtor never lowers the score. */
  lemma DebtNeverLowersScore(d: StudentData, modelType: string)
    ensures DropoutScore(d.(debtor := 1.0), modelType) >= DropoutScore(d, modelType)
  {
    ScoreMonotone(d.(debtor := 1.0), d, modelType);
  }

  /** Falling behind on fees never lowers the score. */
  lemma UnpaidFeesNeverLowerScore(d: StudentData, modelType: string)
    ensures DropoutScore(d.(tuitionFeesUpToDate := 0.0), modelType) >= DropoutScore(d, modelType)
  {
    ScoreMonotone(d.(tuitionFeesUpToDate := 0.0), d, modelType);
  }

  /** Losing the scholarship never lowers the score. */
  lemma LosingScholarshipNeverLowersScore(d: StudentData, modelType: string)
    ensures DropoutScore(d.(scholarshipHolder := 0.0), modelType) >= DropoutScore(d, modelType)
  {
    ScoreMonotone(d.(scholarshipHolder := 0.0), d, modelType);
  }
}
