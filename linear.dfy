/** Logistic-regression scoring: the model record, `dot`, `buildX` and
    `predictLR`. */
module Linear {

  import opened Wrappers
  import opened Errors
  import opened Coercion
  import opened Sorting

  /** One logistic-regression model as loaded from its file: the feature
      order of its schema, one coefficient per feature and the intercept. */
  datatype LinearModel = LinearModel(features: seq<string>, coef: seq<real>, intercept: real)

  /** The loaded-model invariant: one coefficient per feature. */
  predicate Aligned(m: LinearModel) {
    |m.coef| == |m.features|
  }

  /** `a[0]*b[0] + ... + a[|a|-1]*b[|a|-1]`: the sum runs over the indices
      of `a`, as the loop of `dot` does. */
  function Dot(a: seq<real>, b: seq<real>): (r: real)
    requires |a| <= |b|
    ensures a == [] ==> r == 0.0
  {
    if a == [] then 0.0 else Dot(a[..|a| - 1], b) + a[|a| - 1] * b[|a| - 1]
  }

  /** `dot`: accumulates `s` over the indices of `a`. */
  method DotLoop(a: seq<real>, b: seq<real>) returns (s: real)
    requires |a| <= |b|
    ensures s == Dot(a, b)
  {
    s := 0.0;
    for i := 0 to |a|
      invariant s == Dot(a[..i], b)
    {
      assert a[..i + 1][..i] == a[..i];
      s := s + a[i] * b[i];
    }
    assert a[..|a|] == a;
  }

  /** Terms with a zero factor add nothing: a vector whose every term has
      a zero factor scores zero. */
  lemma {:induction false} DotOfZeroTerms(a: seq<real>, b: seq<real>)
    requires |a| <= |b|
    requires forall i :: 0 <= i < |a| ==> a[i] == 0.0 || b[i] == 0.0
    ensures Dot(a, b) == 0.0
  {
    if a != [] {
      var n := |a| - 1;
      assert forall i :: 0 <= i < n ==> a[..n][i] == a[i];
      DotOfZeroTerms(a[..n], b);
    }
  }

  /** Only the first `|a|` entries of `b` are read. */
  lemma {:induction false} DotReadsPrefix(a: seq<real>, b: seq<real>, c: seq<real>)
    requires |a| <= |b| && |a| <= |c|
    requires b[..|a|] == c[..|a|]
    ensures Dot(a, b) == Dot(a, c)
  {
    if a != [] {
      var n := |a| - 1;
      assert b[..n] == c[..n] by {
        assert b[..n] == b[..|a|][..n];
        assert c[..n] == c[..|a|][..n];
      }
      assert b[n] == b[..|a|][n];
      assert c[n] == c[..|a|][n];
      DotReadsPrefix(a[..n], b, c);
    }
  }

  /** The termwise differences `a[i] * (b[i] - c[i])`. */
  function Differences(a: seq<real>, b: seq<real>, c: seq<real>): (d: seq<real>)
    requires |a| <= |b| && |a| <= |c|
    ensures |d| == |a|
    ensures forall i :: 0 <= i < |a| ==> d[i] == a[i] * (b[i] - c[i])
  {
    seq(|a|, i requires 0 <= i < |a| => a[i] * (b[i] - c[i]))
  }

  function Id(v: real): real {
    v
  }

  /** The difference of two dot products with the same left operand is the
      sum of the termwise differences. */
  lemma {:induction false} DotDifference(a: seq<real>, b: seq<real>, c: seq<real>)
    requires |a| <= |b| && |a| <= |c|
    ensures Dot(a, b) - Dot(a, c) == SumBy(Differences(a, b, c), Id)
  {
    if a != [] {
      var n := |a| - 1;
      DotDifference(a[..n], b, c);
      var d, d' := Differences(a, b, c), Differences(a[..n], b, c);
      assert d[..n] == d' by {
        forall i | 0 <= i < n ensures d[..n][i] == d'[i] {
          assert a[..n][i] == a[i];
        }
      }
    }
  }

  /** Whether `S` has a value for the feature named `name` (`fname in S`). */
  predicate Present(name: string, s: FeatureMap) {
    FeatureNamed(name).Some? && FeatureNamed(name).value in s
  }

  function Lookup(name: string, s: FeatureMap): real
    requires Present(name, s)
  {
    s[FeatureNamed(name).value]
  }

  /** `buildX`: the feature vector in the order of `names`, or the error
      naming the first feature `S` lacks. */
  function BuildX(names: seq<string>, s: FeatureMap): (r: Result<seq<real>, EngineError>)
    ensures r.Ok? <==> forall i :: 0 <= i < |names| ==> Present(names[i], s)
    ensures r.Ok? ==> |r.value| == |names|
    ensures r.Ok? ==> forall i :: 0 <= i < |names| ==> r.value[i] == Lookup(names[i], s)
    ensures r.Err? ==>
      exists i :: (0 <= i < |names| && r.error == MissingFeature(names[i]) && !Present(names[i], s)
                   && forall j :: 0 <= j < i ==> Present(names[j], s))
  {
    if names == [] then Ok([])
    else if !Present(names[0], s) then Err(MissingFeature(names[0]))
    else
      match BuildX(names[1..], s)
      case Err(e) =>
        ghost var i :| 0 <= i < |names[1..]| && e == MissingFeature(names[1..][i])
          && !Present(names[1..][i], s) && forall j :: 0 <= j < i ==> Present(names[1..][j], s);
        assert forall j :: 0 <= j < i + 1 ==> Present(names[j], s) by {
          forall j | 0 <= j < i + 1 ensures Present(names[j], s) {
            if j > 0 {
              assert names[j] == names[1..][j - 1];
            }
          }
        }
        Err(e)
      case Ok(rest) =>
        assert forall i :: 1 <= i < |names| ==> names[i] == names[1..][i - 1];
        Ok([Lookup(names[0], s)] + rest)
  }

  /** The vector depends only on the values of the listed features. */
  lemma BuildXReadsListed(names: seq<string>, s1: FeatureMap, s2: FeatureMap)
    requires forall i :: 0 <= i < |names| ==> (Present(names[i], s1) <==> Present(names[i], s2))
    requires forall i :: 0 <= i < |names| && Present(names[i], s1) ==> Lookup(names[i], s1) == Lookup(names[i], s2)
    ensures BuildX(names, s1) == BuildX(names, s2)
  {
    var r1, r2 := BuildX(names, s1), BuildX(names, s2);
    if r1.Ok? {
      assert r1.value == r2.value;
    } else {
      var i :| 0 <= i < |names| && r1.error == MissingFeature(names[i])
        && !Present(names[i], s1) && forall j :: 0 <= j < i ==> Present(names[j], s1);
      var k :| 0 <= k < |names| && r2.error == MissingFeature(names[k])
        && !Present(names[k], s2) && forall j :: 0 <= j < k ==> Present(names[j], s2);
      assert !(i < k) && !(k < i);
    }
  }

  /** `predictLR`: the sigmoid of the linear score. */
  function PredictLR(m: LinearModel, x: seq<real>, sigmoid: real -> real): (p: real)
    requires |m.coef| <= |x|
    ensures (forall z :: 0.0 < sigmoid(z) < 1.0) ==> 0.0 < p < 1.0
  {
    sigmoid(Dot(m.coef, x) + m.intercept)
  }

  /** The probability is the sigmoid of the log-odds `coef . x + intercept`. */
  lemma PredictLRIsSigmoidOfLogOdds(m: LinearModel, x: seq<real>, sigmoid: real -> real, logOdds: real)
    requires |m.coef| <= |x| && logOdds == Dot(m.coef, x) + m.intercept
    ensures PredictLR(m, x, sigmoid) == sigmoid(logOdds)
  {
  }
}
