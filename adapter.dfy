/** The model-family branch of dashboard/app.py: a loaded model counts as
    linear when its type string names LogisticRegression (line 17); a
    linear model is fed the scaled row (line 85), and the explainer (lines
    20 and 136) is chosen and fed to match. */
module ModelAdapter {
  import opened Frame

  /** `pattern` stands in `s` starting at position `i`. */
  predicate OccursAt(s: string, pattern: string, i: int)
  {
    0 <= i && i + |pattern| <= |s| && s[i..i + |pattern|] == pattern
  }

  /** Python's `pattern in s` on strings, scanning from the left: true
      exactly when `pattern` occurs in `s` at some position. */
  function Contains(s: string, pattern: string): (r: bool)
    ensures r <==> exists i :: OccursAt(s, pattern, i)
    decreases |s|
  {
    if |s| < |pattern| then
      assert forall i :: !OccursAt(s, pattern, i);
      false
    else if s[..|pattern|] == pattern then
      assert OccursAt(s, pattern, 0);
      true
    else
      var rest := Contains(s[1..], pattern);
      assert rest ==> exists i :: OccursAt(s, pattern, i) by {
        if rest {
          var i :| OccursAt(s[1..], pattern, i);
          assert s[i + 1..i + 1 + |pattern|] == s[1..][i..i + |pattern|];
          assert OccursAt(s, pattern, i + 1);
        }
      }
      assert (exists i :: OccursAt(s, pattern, i)) ==> rest by {
        if i :| OccursAt(s, pattern, i) {
          assert i != 0;
          assert s[1..][i - 1..i - 1 + |pattern|] == s[i..i + |pattern|];
          assert OccursAt(s[1..], pattern, i - 1);
        }
      }
      rest
  }

  /** The class name whose presence in `str(type(model))` marks a linear model. */
  const LinearMarker: string := "LogisticRegression"

  /** The two model families the dashboard distinguishes. */
  datatype Family = Linear | TreeEnsemble

  /** `is_linear` (line 17), as a tagged choice: the model is linear exactly
      when its type string contains "LogisticRegression" somewhere. */
  function FamilyOf(modelType: string): (f: Family)
    ensures f == Linear <==> exists i :: OccursAt(modelType, LinearMarker, i)
  {
    if Contains(modelType, LinearMarker) then Linear else TreeEnsemble
  }

  /** The type string of a scikit-learn logistic regression names the
      marker, so such a model is linear. */
  lemma SklearnLogisticRegressionIsLinear()
    ensures FamilyOf("<class 'sklearn.linear_model._logistic.LogisticRegression'>") == Linear
  {
    assert OccursAt("<class 'sklearn.linear_model._logistic.LogisticRegression'>", LinearMarker, 39);
  }

  /** What the model and the explainer are given: the scaler's output for a
      linear model (an array without column names), the encoded frame
      otherwise. */
  datatype Prepared = Scaled(features: seq<real>) | Unscaled(row: Row)

  /** `input_prepared` (line 85), with `transform` standing for the fitted
      scaler's `transform`: the scaled row exactly when the model is
      linear, the encoded row untouched otherwise. */
  function PrepareInput(family: Family, encoded: Row, transform: Row -> seq<real>): (p: Prepared)
    ensures p.Scaled? <==> family == Linear
    ensures p.Scaled? ==> p.features == transform(encoded)
    ensures p.Unscaled? ==> p.row == encoded
  {
    if family == Linear then Scaled(transform(encoded)) else Unscaled(encoded)
  }

  /** The SHAP explainers of line 20. */
  datatype ExplainerKind = TreeExplainer | GenericExplainer

  /** Line 20: a tree explainer for every model that is not linear, the
      generic one for a linear model. */
  function ExplainerFor(family: Family): (k: ExplainerKind)
    ensures k == GenericExplainer <==> family == Linear
  {
    if family != Linear then TreeExplainer else GenericExplainer
  }

  /** The argument of `explainer.shap_values` (line 136), which app.py
      writes as its own conditional over the encoded and prepared inputs:
      the tree explainer of line 20 is given the encoded row unscaled, the
      generic explainer the prepared input. */
  function ExplainerInput(family: Family, encoded: Row, prepared: Prepared): (r: Prepared)
    ensures ExplainerFor(family) == TreeExplainer ==> r == Unscaled(encoded)
    ensures ExplainerFor(family) == GenericExplainer ==> r == prepared
  {
    if family != Linear then Unscaled(encoded) else prepared
  }

  /** The explainer sees exactly what `predict_proba` sees (line 91): the
      scaled row for a linear model, the unscaled encoded row otherwise. */
  lemma ExplainerSeesModelInput(family: Family, encoded: Row, transform: Row -> seq<real>)
    ensures ExplainerInput(family, encoded, PrepareInput(family, encoded, transform)) ==
            PrepareInput(family, encoded, transform)
  {
  }

  /** Each explainer gets the data it is built for (lines 20, 85 and 136):
      the tree explainer the encoded row exactly as the model sees it, the
      generic explainer the scaler's output. */
  lemma ExplainerMatchesItsInput(family: Family, encoded: Row, transform: Row -> seq<real>)
    ensures var input := ExplainerInput(family, encoded, PrepareInput(family, encoded, transform));
      && (ExplainerFor(family) == TreeExplainer <==> input == Unscaled(encoded))
      && (ExplainerFor(family) == GenericExplainer <==> input == Scaled(transform(encoded)))
  {
  }
}
