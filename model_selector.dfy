/** The model selector: resolves a user-facing model name ("Gender Blind",
    "drop-gender", ...) to one of the four canonical model ids. */
module ModelSelector {

  import opened Wrappers

  datatype ModelId = Baseline | DropGender | Reweighted | Calibrated

  function CanonicalName(id: ModelId): string {
    match id
    case Baseline => "baseline"
    case DropGender => "drop_gender"
    case Reweighted => "reweighted"
    case Calibrated => "calibrated"
  }

  /** The alias table, keyed by normalized alias. */
  const AliasTable: map<string, ModelId> :=
    map[
      "baseline" := Baseline,
      "baseline_model" := Baseline,
      "drop_gender" := DropGender,
      "drop-gender" := DropGender,
      "gender_blind" := DropGender,
      "gender-blind" := DropGender,
      "reweighted" := Reweighted,
      "calibrated" := Calibrated
    ]

  /** The aliases of each model, read the other way round. */
  function Aliases(id: ModelId): set<string> {
    match id
    case Baseline => {"baseline", "baseline_model"}
    case DropGender => {"drop_gender", "drop-gender", "gender_blind", "gender-blind"}
    case Reweighted => {"reweighted"}
    case Calibrated => {"calibrated"}
  }

  predicate IsUpper(c: char) {
    'A' <= c <= 'Z'
  }

  /** The lower-case letter of an ASCII capital; every other character is
      kept. */
  function LowerChar(c: char): (r: char)
    ensures !IsUpper(r)
    ensures IsUpper(c) ==> r as int == c as int + 32
    ensures !IsUpper(c) ==> r == c
  {
    if IsUpper(c) then (c as int + 32) as char else c
  }

  /** `toLowerCase`, for the ASCII letters. */
  function ToLower(s: string): (r: string)
    ensures |r| == |s| && NoUpper(r)
    ensures forall i :: 0 <= i < |s| && IsUpper(s[i]) ==> r[i] as int == s[i] as int + 32
    ensures forall i :: 0 <= i < |s| && !IsUpper(s[i]) ==> r[i] == s[i]
  {
    seq(|s|, i requires 0 <= i < |s| => LowerChar(s[i]))
  }

  /** The characters the regular-expression class `\s` matches. */
  predicate IsWhitespace(c: char) {
    var n := c as int;
    || (9 <= n <= 13) || n == 32 || n == 0xA0 || n == 0x1680 || (0x2000 <= n <= 0x200A)
    || n == 0x2028 || n == 0x2029 || n == 0x202F || n == 0x205F || n == 0x3000 || n == 0xFEFF
  }

  predicate NoWhitespace(s: string) {
    forall i :: 0 <= i < |s| ==> !IsWhitespace(s[i])
  }

  predicate NoUpper(s: string) {
    forall i :: 0 <= i < |s| ==> !IsUpper(s[i])
  }

  /** Drops the whitespace run that starts `s`. */
  function SkipWhitespace(s: string): (r: string)
    ensures |r| <= |s| && r == s[|s| - |r|..]
    ensures r == [] || !IsWhitespace(r[0])
  {
    if s != [] && IsWhitespace(s[0]) then SkipWhitespace(s[1..]) else s
  }

  /** `replace(/\s+/g, "_")`: every maximal whitespace run becomes one `_`. */
  function ReplaceWhitespaceRuns(s: string): (r: string)
    ensures |r| <= |s|
    ensures NoWhitespace(r)
    decreases |s|
  {
    if s == [] then []
    else if IsWhitespace(s[0]) then "_" + ReplaceWhitespaceRuns(SkipWhitespace(s[1..]))
    else [s[0]] + ReplaceWhitespaceRuns(s[1..])
  }

  /** The key `normalizeModelType` looks up: lower case, with no
      whitespace left. */
  function AliasKey(modelType: string): (r: string)
    ensures NoUpper(r) && NoWhitespace(r)
  {
    ReplaceKeepsNoUpper(ToLower(modelType));
    ReplaceWhitespaceRuns(ToLower(modelType))
  }

  /** `normalizeModelType`, looking the key up among the table's own
      entries. An empty name is JavaScript-falsy and resolves to nothing. */
  function NormalizeModelType(modelType: string): (r: Option<ModelId>)
    ensures r.Some? <==> modelType != "" && AliasKey(modelType) in AliasTable
    ensures r.Some? ==> AliasKey(modelType) in Aliases(r.value)
  {
    if modelType == "" then None
    else
      var key := AliasKey(modelType);
      if key in AliasTable then Some(AliasTable[key]) else None
  }

  lemma {:induction false} ReplaceKeepsNoUpper(s: string)
    requires NoUpper(s)
    ensures NoUpper(ReplaceWhitespaceRuns(s))
    decreases |s|
  {
    if s == [] {
    } else if IsWhitespace(s[0]) {
      var rest := SkipWhitespace(s[1..]);
      assert NoUpper(rest) by {
        forall i | 0 <= i < |rest| ensures !IsUpper(rest[i]) {
          assert rest[i] == s[1..][|s| - 1 - |rest| + i];
        }
      }
      ReplaceKeepsNoUpper(rest);
      NoUpperConcat("_", ReplaceWhitespaceRuns(rest));
    } else {
      assert NoUpper(s[1..]) by {
        forall i | 0 <= i < |s| - 1 ensures !IsUpper(s[1..][i]) {
          assert s[1..][i] == s[i + 1];
        }
      }
      ReplaceKeepsNoUpper(s[1..]);
      NoUpperConcat([s[0]], ReplaceWhitespaceRuns(s[1..]));
    }
  }

  lemma NoUpperConcat(a: string, b: string)
    requires NoUpper(a) && NoUpper(b)
    ensures NoUpper(a + b)
  {
    forall i | 0 <= i < |a + b| ensures !IsUpper((a + b)[i]) {
      if i < |a| {
        assert (a + b)[i] == a[i];
      } else {
        assert (a + b)[i] == b[i - |a|];
      }
    }
  }

  lemma {:induction false} ReplaceWithoutWhitespaceIsIdentity(s: string)
    requires NoWhitespace(s)
    ensures ReplaceWhitespaceRuns(s) == s
    decreases |s|
  {
    if s != [] {
      assert NoWhitespace(s[1..]) by {
        forall i | 0 <= i < |s| - 1 ensures !IsWhitespace(s[1..][i]) {
          assert s[1..][i] == s[i + 1];
        }
      }
      ReplaceWithoutWhitespaceIsIdentity(s[1..]);
    }
  }

  /** Normalizing an alias key again changes nothing. */
  lemma AliasKeyIdempotent(modelType: string)
    ensures AliasKey(AliasKey(modelType)) == AliasKey(modelType)
  {
    NormalNameIsItsKey(AliasKey(modelType));
  }

  /** The table and the per-model alias sets describe the same relation. */
  lemma AliasTableMatchesAliases(key: string, id: ModelId)
    ensures key in AliasTable && AliasTable[key] == id <==> key in Aliases(id)
  {
  }

  /** A name resolves to a model exactly when its normalized key is one of
      that model's aliases. */
  lemma ResolvesExactlyToAliases(modelType: string, id: ModelId)
    ensures NormalizeModelType(modelType) == Some(id) <==> modelType != "" && AliasKey(modelType) in Aliases(id)
  {
    AliasTableMatchesAliases(AliasKey(modelType), id);
  }

  /** A name already in normal form is its own key. */
  lemma NormalNameIsItsKey(s: string)
    requires NoUpper(s) && NoWhitespace(s)
    ensures AliasKey(s) == s
  {
    assert ToLower(s) == s;
    ReplaceWithoutWhitespaceIsIdentity(s);
  }

  /** An alias already in normal form resolves to its model. */
  lemma NormalAliasResolves(s: string, id: ModelId)
    requires s in Aliases(id) && NoUpper(s) && NoWhitespace(s)
    ensures NormalizeModelType(s) == Some(id)
  {
    NormalNameIsItsKey(s);
    AliasTableMatchesAliases(s, id);
  }

  /** Every canonical name resolves to its own model. */
  lemma CanonicalNameResolves(id: ModelId)
    ensures NormalizeModelType(CanonicalName(id)) == Some(id)
  {
    var name := CanonicalName(id);
    assert name in Aliases(id) && NoUpper(name) && NoWhitespace(name) by {
      match id
      case Baseline =>
      case DropGender =>
      case Reweighted =>
      case Calibrated =>
    }
    NormalAliasResolves(name, id);
  }

  /** Resolving is idempotent: the key a name resolved through, and the
      canonical name of the model it resolved to, resolve to the same model. */
  lemma NormalizeIdempotent(modelType: string)
    requires NormalizeModelType(modelType).Some?
    ensures NormalizeModelType(AliasKey(modelType)) == NormalizeModelType(modelType)
    ensures NormalizeModelType(CanonicalName(NormalizeModelType(modelType).value)) == NormalizeModelType(modelType)
  {
    AliasKeyIdempotent(modelType);
    CanonicalNameResolves(NormalizeModelType(modelType).value);
  }

  /** Upper case does not matter: a name resolves as its lower-case form
      does. */
  lemma CaseDoesNotMatter(modelType: string)
    ensures NormalizeModelType(ToLower(modelType)) == NormalizeModelType(modelType)
  {
    assert ToLower(ToLower(modelType)) == ToLower(modelType);
  }

  /** A whitespace run between two words becomes one underscore: the key of
      a name whose lower-case form is `a`, a run of whitespace, then `b`, is
      `a_b`. */
  lemma WhitespaceRunBecomesUnderscore(modelType: string, a: string, ws: string, b: string)
    requires ToLower(modelType) == a + ws + b
    requires NoWhitespace(a) && NoWhitespace(b)
    requires ws != [] && forall i :: 0 <= i < |ws| ==> IsWhitespace(ws[i])
    ensures AliasKey(modelType) == a + "_" + b
  {
    ReplaceJoinRun(a, ws, b);
  }

  /** The label "Gender Blind" is lower-cased, its space becomes `_`, and
      it selects the gender-blind model. */
  lemma GenderBlindResolves()
    ensures AliasKey("Gender Blind") == "gender_blind"
    ensures NormalizeModelType("Gender Blind") == Some(DropGender)
  {
    LowerGenderBlind();
    assert NoWhitespace("gender") && NoWhitespace("blind");
    WhitespaceRunBecomesUnderscore("Gender Blind", "gender", " ", "blind");
    assert "gender" + "_" + "blind" == "gender_blind";
  }

  lemma LowerGenderBlind()
    ensures ToLower("Gender Blind") == "gender" + " " + "blind"
  {
    var name, l := "Gender Blind", ToLower("Gender Blind");
    var target := "gender" + " " + "blind";
    assert IsUpper(name[0]) && IsUpper(name[7]);
    assert l[0] == 'g' && l[7] == 'b';
    forall i | 0 < i < |name| && i != 7 ensures l[i] == target[i] {
      assert !IsUpper(name[i]);
    }
  }

  /** Skipping a whitespace run stops at the first other character. */
  lemma {:induction false} SkipRun(ws: string, b: string)
    requires forall i :: 0 <= i < |ws| ==> IsWhitespace(ws[i])
    requires b == [] || !IsWhitespace(b[0])
    ensures SkipWhitespace(ws + b) == b
  {
    if ws != [] {
      assert (ws + b)[0] == ws[0];
      assert (ws + b)[1..] == ws[1..] + b;
      SkipRun(ws[1..], b);
    }
  }

  lemma ReplaceJoinRun(a: string, ws: string, b: string)
    requires NoWhitespace(a) && NoWhitespace(b)
    requires ws != [] && forall i :: 0 <= i < |ws| ==> IsWhitespace(ws[i])
    ensures ReplaceWhitespaceRuns(a + ws + b) == a + "_" + b
  {
    var tail := ws + b;
    assert a + ws + b == a + tail;
    ReplaceConcat(a, tail);
    ReplaceWithoutWhitespaceIsIdentity(a);
    assert tail[0] == ws[0] && IsWhitespace(tail[0]);
    assert tail[1..] == ws[1..] + b;
    assert b == [] || !IsWhitespace(b[0]);
    SkipRun(ws[1..], b);
    assert ReplaceWhitespaceRuns(tail) == "_" + ReplaceWhitespaceRuns(b);
    ReplaceWithoutWhitespaceIsIdentity(b);
  }

  /** Replacing runs distributes over a prefix without whitespace. */
  lemma {:induction false} ReplaceConcat(a: string, b: string)
    requires NoWhitespace(a)
    ensures ReplaceWhitespaceRuns(a + b) == ReplaceWhitespaceRuns(a) + ReplaceWhitespaceRuns(b)
  {
    if a == [] {
      assert a + b == b;
    } else {
      assert (a + b)[0] == a[0];
      assert (a + b)[1..] == a[1..] + b;
      assert NoWhitespace(a[1..]) by {
        forall i | 0 <= i < |a| - 1 ensures !IsWhitespace(a[1..][i]) {
          assert a[1..][i] == a[i + 1];
        }
      }
      ReplaceConcat(a[1..], b);
      assert !IsWhitespace(a[0]);
      calc {
        ReplaceWhitespaceRuns(a + b);
        [a[0]] + ReplaceWhitespaceRuns(a[1..] + b);
        [a[0]] + (ReplaceWhitespaceRuns(a[1..]) + ReplaceWhitespaceRuns(b));
        ([a[0]] + ReplaceWhitespaceRuns(a[1..])) + ReplaceWhitespaceRuns(b);
        ReplaceWhitespaceRuns(a) + ReplaceWhitespaceRuns(b);
      }
    }
  }

  /** Every alias in the table resolves to its model. */
  lemma EveryAliasResolves(id: ModelId, s: string)
    requires s in Aliases(id)
    ensures NormalizeModelType(s) == Some(id)
  {
    assert NoUpper(s) && NoWhitespace(s) by {
      forall i | 0 <= i < |s| ensures !IsUpper(s[i]) && !IsWhitespace(s[i]) {
        assert 'a' <= s[i] <= 'z' || s[i] == '_' || s[i] == '-';
      }
    }
    NormalAliasResolves(s, id);
  }

  /** Unknown and empty names resolve to nothing. */
  lemma UnknownNamesResolveToNothing()
    ensures NormalizeModelType("nonexistent") == None
    ensures NormalizeModelType("") == None
  {
    var name := "nonexistent";
    assert NoUpper(name) && NoWhitespace(name) by {
      forall i | 0 <= i < |name| ensures !IsUpper(name[i]) && !IsWhitespace(name[i]) {
        assert 'a' <= name[i] <= 'z';
      }
    }
    NormalNameIsItsKey(name);
    assert name !in AliasTable by {
      assert name[0] == 'n';
      forall k | k in AliasTable ensures k != name {
        assert k[0] != 'n';
      }
    }
  }

  // ---- The lookup as the source writes it ----------------------------------

  /** What reading a property of a plain JavaScript object literal can give:
      one of its own entries, a member every object inherits from
      `Object.prototype`, or `undefined`. */
  datatype PropertyRead = Own(id: ModelId) | Inherited(member: string) | Absent

  const PrototypeMembers: set<string> :=
    {"constructor", "__proto__", "__defineGetter__", "__defineSetter__", "__lookupGetter__",
     "__lookupSetter__", "hasOwnProperty", "isPrototypeOf", "propertyIsEnumerable",
     "toLocaleString", "toString", "valueOf"}

  /** `MODEL_TYPE_MAP[key]` as written: a plain property read. */
  function ReadAliasProperty(key: string): PropertyRead {
    if key in AliasTable then Own(AliasTable[key])
    else if key in PrototypeMembers then Inherited(key)
    else Absent
  }

  /** `normalizeModelType` as written. */
  function NormalizeModelTypeAsWritten(modelType: string): (r: PropertyRead)
    ensures r.Own? <==> NormalizeModelType(modelType).Some?
    ensures r.Own? ==> NormalizeModelType(modelType) == Some(r.id)
  {
    if modelType == "" then Absent else ReadAliasProperty(AliasKey(modelType))
  }

  /** No inherited member is an alias. */
  lemma MembersAreNotAliases()
    ensures forall m | m in PrototypeMembers :: m !in AliasTable
  {
  }

  /** As written, a name whose key is an inherited member resolves to that
      member: a truthy value that is none of the four ids. */
  lemma MemberKeysEscapeAliasTable(modelType: string)
    requires modelType != "" && AliasKey(modelType) in PrototypeMembers
    ensures NormalizeModelTypeAsWritten(modelType) == Inherited(AliasKey(modelType))
    ensures NormalizeModelType(modelType) == None
  {
    MembersAreNotAliases();
  }

  /** "constructor" is such a name. */
  lemma ConstructorEscapesAliasTable()
    ensures NormalizeModelTypeAsWritten("constructor") == Inherited("constructor")
    ensures NormalizeModelType("constructor") == None
  {
    NormalNameIsItsKey("constructor");
    MemberKeysEscapeAliasTable("constructor");
  }

  /** So is "__proto__". */
  lemma ProtoEscapesAliasTable()
    ensures NormalizeModelTypeAsWritten("__proto__") == Inherited("__proto__")
    ensures NormalizeModelType("__proto__") == None
  {
    NormalNameIsItsKey("__proto__");
    MemberKeysEscapeAliasTable("__proto__");
  }

  /** Every inherited member name other than these two has a capital. */
  lemma CapitalizedMembers()
    ensures forall m | m in PrototypeMembers && m != "constructor" && m != "__proto__" :: !NoUpper(m)
  {
    assert IsUpper("__defineGetter__"[8]) && IsUpper("__defineSetter__"[8]);
    assert IsUpper("__lookupGetter__"[8]) && IsUpper("__lookupSetter__"[8]);
    assert IsUpper("hasOwnProperty"[3]) && IsUpper("isPrototypeOf"[2]);
    assert IsUpper("propertyIsEnumerable"[8]) && IsUpper("toLocaleString"[2]);
    assert IsUpper("toString"[2]) && IsUpper("valueOf"[5]);
  }

  /** Only the two lower-case members can be reached, because the key is
      lower-cased first. */
  lemma OnlyLowerCaseMembersEscape(modelType: string)
    requires NormalizeModelTypeAsWritten(modelType).Inherited?
    ensures NormalizeModelTypeAsWritten(modelType).member in {"constructor", "__proto__"}
  {
    CapitalizedMembers();
  }
}
