/** The feature normalizer: turns the loosely typed fields of a request's
    student object into the twelve-key canonical feature map, falling back to
    the defaults table (training medians and modes) wherever a field is
    missing or does not coerce. */
module Coercion {

  import opened Wrappers
  import opened JsValues

  /** The twelve canonical features, named as in the model files. */
  datatype Feature =
    | AdmissionGrade | AgeAtEnrollment | ScholarshipHolder | TuitionUpToDate
    | Displaced | SpecialNeeds | Debtor | International
    | UnemploymentRate | InflationRate | Gdp | Gender

  function Name(f: Feature): string {
    match f
    case AdmissionGrade => "Admission grade"
    case AgeAtEnrollment => "Age at enrollment"
    case ScholarshipHolder => "Scholarship holder"
    case TuitionUpToDate => "Tuition fees up to date"
    case Displaced => "Displaced"
    case SpecialNeeds => "Educational special needs"
    case Debtor => "Debtor"
    case International => "International"
    case UnemploymentRate => "Unemployment rate"
    case InflationRate => "Inflation rate"
    case Gdp => "GDP"
    case Gender => "Gender"
  }

  /** The property name the front end uses for a feature; several features
      use the same name in both conventions. */
  function UnderscoreKey(f: Feature): string {
    match f
    case AdmissionGrade => "Admission_grade"
    case AgeAtEnrollment => "Age_at_enrollment"
    case ScholarshipHolder => "Scholarship_holder"
    case TuitionUpToDate => "Tuition_up_to_date"
    case SpecialNeeds => "Educational_special_needs"
    case UnemploymentRate => "Unemployment_rate"
    case InflationRate => "Inflation_rate"
    case _ => Name(f)
  }

  /** The canonical feature a model file's feature name denotes, if any. */
  function FeatureNamed(name: string): (r: Option<Feature>)
    ensures r.Some? ==> Name(r.value) == name
  {
    if name == "Admission grade" then Some(AdmissionGrade)
    else if name == "Age at enrollment" then Some(AgeAtEnrollment)
    else if name == "Scholarship holder" then Some(ScholarshipHolder)
    else if name == "Tuition fees up to date" then Some(TuitionUpToDate)
    else if name == "Displaced" then Some(Displaced)
    else if name == "Educational special needs" then Some(SpecialNeeds)
    else if name == "Debtor" then Some(Debtor)
    else if name == "International" then Some(International)
    else if name == "Unemployment rate" then Some(UnemploymentRate)
    else if name == "Inflation rate" then Some(InflationRate)
    else if name == "GDP" then Some(Gdp)
    else if name == "Gender" then Some(Gender)
    else None
  }

  /** Every canonical name is recognised as its own feature. */
  lemma FeatureNamedInverse(f: Feature)
    ensures FeatureNamed(Name(f)) == Some(f)
  {
  }

  /** The five features coerced as numbers; the other seven are binary. */
  predicate IsNumeric(f: Feature) {
    f.AdmissionGrade? || f.AgeAtEnrollment? || f.UnemploymentRate? || f.InflationRate? || f.Gdp?
  }

  /** The canonical feature map: the normalized student, keyed by feature. */
  type FeatureMap = map<Feature, real>

  /** The defaults table, keyed by canonical feature name. */
  type Defaults = map<string, real>

  predicate DefaultsComplete(defaults: Defaults) {
    forall f: Feature :: Name(f) in defaults
  }

  function Default(defaults: Defaults, f: Feature): real
    requires DefaultsComplete(defaults)
  {
    defaults[Name(f)]
  }

  /** The values accepted as "yes" and as "no". */
  const YesValues: set<JsValue> := {Str("Yes"), Num(1.0), Str("1"), Bool(true)}
  const NoValues: set<JsValue> := {Str("No"), Num(0.0), Str("0"), Bool(false)}

  /** `yesNoTo01`: `None` is the source's `undefined`. */
  function YesNoTo01(v: JsValue): (r: Option<real>)
    ensures r == Some(1.0) <==> v in YesValues
    ensures r == Some(0.0) <==> v in NoValues
    ensures r.None? <==> v !in YesValues + NoValues
  {
    if v == Str("Yes") || v == Num(1.0) || v == Str("1") || v == Bool(true) then Some(1.0)
    else if v == Str("No") || v == Num(0.0) || v == Str("0") || v == Bool(false) then Some(0.0)
    else None
  }

  /** `numOrDefault`. */
  function NumOrDefault(v: JsValue, fallback: real, parse: NumberParser): (r: real)
    ensures IsNullish(v) || v == Str("") || ToNumber(v, parse).None? ==> r == fallback
    ensures !IsNullish(v) && v != Str("") && ToNumber(v, parse).Some? ==> r == ToNumber(v, parse).value
  {
    if v.Undefined? || v.Null? || v == Str("") then fallback
    else
      match ToNumber(v, parse)
      case Some(n) => n
      case None => fallback
  }

  /** `src.Underscore_key ?? src["Spaced key"]`. */
  function RawField(src: RawObject, f: Feature): JsValue {
    Coalesce(Get(src, UnderscoreKey(f)), Get(src, Name(f)))
  }

  function NumericFeature(src: RawObject, f: Feature, defaults: Defaults, parse: NumberParser): real
    requires DefaultsComplete(defaults)
  {
    NumOrDefault(RawField(src, f), Default(defaults, f), parse)
  }

  function BinaryFeature(src: RawObject, f: Feature, defaults: Defaults): real
    requires DefaultsComplete(defaults)
  {
    YesNoTo01(RawField(src, f)).GetOr(Default(defaults, f))
  }

  /** The gender field keeps a numeric 0 or 1 as it is and otherwise goes
      through the yes/no coercion. */
  function GenderTo01(v: JsValue): (r: Option<real>)
    ensures v == Num(0.0) || v == Num(1.0) ==> r == Some(v.n)
    ensures r == Some(1.0) <==> v in YesValues
    ensures r == Some(0.0) <==> v in NoValues
    ensures r.None? <==> v !in YesValues + NoValues
  {
    if v == Num(0.0) || v == Num(1.0) then Some(v.n) else YesNoTo01(v)
  }

  function GenderFeature(src: RawObject, defaults: Defaults): real
    requires DefaultsComplete(defaults)
  {
    GenderTo01(Get(src, Name(Gender))).GetOr(Default(defaults, Gender))
  }

  const AllFeatures: set<Feature> :=
    {AdmissionGrade, AgeAtEnrollment, ScholarshipHolder, TuitionUpToDate, Displaced, SpecialNeeds,
     Debtor, International, UnemploymentRate, InflationRate, Gdp, Gender}

  lemma AllFeaturesListed()
    ensures forall f: Feature :: f in AllFeatures
  {
    forall f: Feature ensures f in AllFeatures {
      match f
      case AdmissionGrade =>
      case AgeAtEnrollment =>
      case ScholarshipHolder =>
      case TuitionUpToDate =>
      case Displaced =>
      case SpecialNeeds =>
      case Debtor =>
      case International =>
      case UnemploymentRate =>
      case InflationRate =>
      case Gdp =>
      case Gender =>
    }
  }

  /** One entry of the object literal `normalizeStudent` builds. */
  function FeatureValue(src: RawObject, f: Feature, defaults: Defaults, parse: NumberParser): real
    requires DefaultsComplete(defaults)
  {
    if IsNumeric(f) then NumericFeature(src, f, defaults, parse)
    else if f == Gender then GenderFeature(src, defaults)
    else BinaryFeature(src, f, defaults)
  }

  /** `normalizeStudent`: total, and every feature either comes from the
      request or from the defaults table. A request whose student object is
      missing is normalized as the empty object. */
  function NormalizeStudent(src: RawObject, defaults: Defaults, parse: NumberParser): (s: FeatureMap)
    requires DefaultsComplete(defaults)
    ensures forall f: Feature :: f in s
    ensures forall f: Feature :: !IsNumeric(f) ==>
              s[f] == 0.0 || s[f] == 1.0 || s[f] == Default(defaults, f)
    ensures forall f: Feature :: IsNumeric(f) ==>
              s[f] == Default(defaults, f) || ToNumber(RawField(src, f), parse) == Some(s[f])
    ensures forall f: Feature :: IsNumeric(f) ==>
              s[f] == NumOrDefault(RawField(src, f), Default(defaults, f), parse)
    ensures forall f: Feature :: !IsNumeric(f) && f != Gender ==>
              s[f] == YesNoTo01(RawField(src, f)).GetOr(Default(defaults, f))
    ensures s[Gender] == GenderTo01(Get(src, "Gender")).GetOr(Default(defaults, Gender))
  {
    AllFeaturesListed();
    map f | f in AllFeatures :: FeatureValue(src, f, defaults, parse)
  }

  /** Each feature is read from its two properties and nothing else. */
  lemma NormalizeReadsOnlyRawField(src1: RawObject, src2: RawObject, defaults: Defaults,
                                   parse: NumberParser, f: Feature)
    requires DefaultsComplete(defaults)
    requires RawField(src1, f) == RawField(src2, f)
    ensures NormalizeStudent(src1, defaults, parse)[f] == NormalizeStudent(src2, defaults, parse)[f]
  {
    if f == Gender {
      assert Get(src1, Name(Gender)) == RawField(src1, f);
    }
  }

  /** When the underscore property is neither null nor undefined it alone
      decides the feature: the spaced property is never consulted. */
  lemma UnderscoreKeyTakesPrecedence(src1: RawObject, src2: RawObject, defaults: Defaults,
                                     parse: NumberParser, f: Feature)
    requires DefaultsComplete(defaults)
    requires !IsNullish(Get(src1, UnderscoreKey(f)))
    requires Get(src1, UnderscoreKey(f)) == Get(src2, UnderscoreKey(f))
    ensures NormalizeStudent(src1, defaults, parse)[f] == NormalizeStudent(src2, defaults, parse)[f]
  {
    NormalizeReadsOnlyRawField(src1, src2, defaults, parse, f);
  }

  /** Otherwise the spaced property decides it. */
  lemma SpacedKeyIsFallback(src1: RawObject, src2: RawObject, defaults: Defaults,
                            parse: NumberParser, f: Feature)
    requires DefaultsComplete(defaults)
    requires IsNullish(Get(src1, UnderscoreKey(f))) && IsNullish(Get(src2, UnderscoreKey(f)))
    requires Get(src1, Name(f)) == Get(src2, Name(f))
    ensures NormalizeStudent(src1, defaults, parse)[f] == NormalizeStudent(src2, defaults, parse)[f]
  {
    NormalizeReadsOnlyRawField(src1, src2, defaults, parse, f);
  }

  /** A field that is missing, empty or does not coerce takes the defaults
      table's value. */
  lemma FailedCoercionUsesDefault(src: RawObject, defaults: Defaults, parse: NumberParser, f: Feature)
    requires DefaultsComplete(defaults)
    requires IsNumeric(f) ==>
               IsNullish(RawField(src, f)) || RawField(src, f) == Str("") || ToNumber(RawField(src, f), parse).None?
    requires !IsNumeric(f) ==> RawField(src, f) !in YesValues + NoValues
    ensures NormalizeStudent(src, defaults, parse)[f] == Default(defaults, f)
  {
    if f == Gender {
      assert Get(src, Name(Gender)) == RawField(src, f);
    }
  }

  /** A binary field given as one of the accepted surrogates is coerced to
      0 or 1, whatever the defaults table says. */
  lemma SurrogatesCoerce(src: RawObject, defaults: Defaults, parse: NumberParser, f: Feature)
    requires DefaultsComplete(defaults) && !IsNumeric(f)
    ensures RawField(src, f) in YesValues ==> NormalizeStudent(src, defaults, parse)[f] == 1.0
    ensures RawField(src, f) in NoValues ==> NormalizeStudent(src, defaults, parse)[f] == 0.0
  {
    if f == Gender {
      assert Get(src, Name(Gender)) == RawField(src, f);
    }
  }

  /** A gender given as the number 0 or 1 is kept. */
  lemma GenderKeptWhenBinary(src: RawObject, defaults: Defaults, parse: NumberParser)
    requires DefaultsComplete(defaults)
    requires Get(src, "Gender") == Num(0.0) || Get(src, "Gender") == Num(1.0)
    ensures NormalizeStudent(src, defaults, parse)[Gender] == Get(src, "Gender").n
  {
  }

  /** The gender field's own test for 0 and 1 gives nothing that the yes/no
      coercion would not give. */
  lemma GenderCoercionIsYesNo(v: JsValue)
    ensures GenderTo01(v) == YesNoTo01(v)
  {
  }

  /** An unemployment rate that is left out, null or empty takes the
      defaults table's value. */
  lemma OmittedUnemploymentRateUsesDefault(src: RawObject, defaults: Defaults, parse: NumberParser)
    requires DefaultsComplete(defaults)
    requires Get(src, "Unemployment_rate") in {Undefined, Null, Str("")}
    requires Get(src, "Unemployment rate") in {Undefined, Null, Str("")}
    ensures NormalizeStudent(src, defaults, parse)[UnemploymentRate] == Default(defaults, UnemploymentRate)
  {
  }

  /** The prediction form's typical request. */
  const FormInput: RawObject :=
    map["Admission_grade" := Num(120.0), "Age_at_enrollment" := Num(19.0),
        "Scholarship_holder" := Str("Yes"), "Tuition_up_to_date" := Str("Yes"),
        "Debtor" := Str("No"), "Gender" := Num(0.0)]

  /** The form's numeric fields are read as given. */
  lemma FormInputNumbers(defaults: Defaults, parse: NumberParser)
    requires DefaultsComplete(defaults)
    ensures var s := NormalizeStudent(FormInput, defaults, parse);
            s[AdmissionGrade] == 120.0 && s[AgeAtEnrollment] == 19.0 && s[Gender] == 0.0
  {
    var s := NormalizeStudent(FormInput, defaults, parse);
    assert s[AdmissionGrade] == 120.0 by {
      assert RawField(FormInput, AdmissionGrade) == Num(120.0);
    }
    assert s[AgeAtEnrollment] == 19.0 by {
      assert RawField(FormInput, AgeAtEnrollment) == Num(19.0);
    }
    assert s[Gender] == 0.0 by {
      assert Get(FormInput, "Gender") == Num(0.0);
    }
  }
}
