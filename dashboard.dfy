/** One press of "Predict Risk" in dashboard/app.py, end to end: encode the
    applicant, prepare the model input for the model's family, score it,
    classify the probability, and build the advice and the conclusion.
    The loaded artifacts (lines 12-14) are parameters. */
module Dashboard {
  import opened Frame
  import opened Applicant
  import opened Encoder
  import opened ModelAdapter
  import Risk
  import Advisor

  /** The artifacts the dashboard loads at start-up: the model's type
      string, its `predict_proba(...)[0][1]` (the probability of default
      for a prepared input), the scaler's `transform`, and `feature_cols`. */
  datatype Artifacts = Artifacts(
    modelType: string,
    predictDefault: Prepared -> real,
    transform: Row -> seq<real>,
    featureCols: seq<string>)

  /** Everything the dashboard shows for one applicant, except the charts. */
  datatype Assessment = Assessment(
    modelInput: Prepared,
    probability: real,
    band: Risk.Band,
    category: string,
    colour: string,
    phrase: string,
    advice: seq<string>,
    conclusion: string)

  /** The assessment as a function of the applicant and the artifacts. */
  function Assess(a: Applicant, art: Artifacts): Assessment
  {
    var family := FamilyOf(art.modelType);
    var prepared := PrepareInput(family, EncodedRow(a, art.featureCols), art.transform);
    var probability := art.predictDefault(prepared);
    var band := Risk.Classify(probability);
    Assessment(prepared, probability, band, Risk.Label(band), Risk.Colour(band),
               Risk.ContextPhrase(Risk.Label(band)), Advisor.Advice(a),
               Risk.Conclusion(Risk.Label(band)))
  }

  /** Lines 72-191 in their order, with the encoding loop and the advice
      appends run as methods. */
  method Evaluate(a: Applicant, art: Artifacts) returns (res: Assessment)
    ensures res == Assess(a, art)
  {
    var encoded := EncodeInput(a, art.featureCols);
    var family := FamilyOf(art.modelType);
    var prepared := PrepareInput(family, encoded, art.transform);
    var probability := art.predictDefault(prepared);
    var band := Risk.Classify(probability);
    var category := Risk.Label(band);
    var advicePoints := Advisor.BuildAdvice(a);
    res := Assessment(prepared, probability, band, category, Risk.Colour(band),
                      Risk.ContextPhrase(category), advicePoints, Risk.Conclusion(category));
  }

  /** What the model is given: for a linear model the scaler's image of the
      encoded row, otherwise the encoded row itself, which has exactly the
      schema's columns, the numeric inputs under their own names and 0 in
      every other column. */
  lemma ModelInputIsEncodedRow(a: Applicant, art: Artifacts)
    ensures var input := Assess(a, art).modelInput;
      && (input.Scaled? <==> FamilyOf(art.modelType) == Linear)
      && (input.Scaled? ==> input.features == art.transform(EncodedRow(a, art.featureCols)))
      && (input.Unscaled? ==>
            Names(input.row) == art.featureCols &&
            forall k :: 0 <= k < |art.featureCols| ==>
              input.row[k].1 == FeatureValue(a, art.featureCols[k]))
  {
    EncodedRowValues(a, art.featureCols);
  }

  /** The texts shown follow the band, and the band follows the
      probability's thresholds; the advice list has its five items. */
  lemma AssessmentConsistent(a: Applicant, art: Artifacts)
    ensures var r := Assess(a, art);
      && r.band == Risk.Classify(r.probability)
      && r.colour == Risk.Colour(r.band)
      && r.phrase == Risk.PhraseOf(r.band)
      && r.conclusion == Risk.ConclusionOf(r.band)
      && |r.advice| == 5
  {
    Risk.LabelSelectsItsCase(Assess(a, art).band);
    Advisor.AdviceFollowsVerdicts(a);
  }

  /** An applicant aged 30 with income 500000, loan 200000,
      20 % of income, five years of history, renting, for education,
      grade A, no default on file. */
  function ExampleApplicant(): Applicant
  {
    Applicant(30, 500000, 200000, 0.2, 5, "RENT", "EDUCATION", "A", "N")
  }

  /** With a model that scores 3 %, the example applicant is Low risk and
      every advice item is the favourable one. */
  lemma LowRiskExample(art: Artifacts)
    requires forall x :: art.predictDefault(x) == 0.03
    ensures Assess(ExampleApplicant(), art).band == Risk.Low
    ensures Assess(ExampleApplicant(), art).conclusion == Risk.LowConclusion
    ensures Assess(ExampleApplicant(), art).advice ==
      [ Advisor.IncomeRule.favourable, Advisor.LoanRule.favourable, Advisor.HistoryRule.favourable,
        Advisor.DefaultRule.favourable, Advisor.GradeRule.favourable ]
  {
    Risk.LabelSelectsItsCase(Risk.Low);
    assert ExampleApplicant().defaultOnFile != Advisor.DefaultFlag;
  }

  /** With a model that scores 12 %, the band is High and the conclusion is
      the high-risk sentence, whatever the applicant. */
  lemma HighRiskExample(a: Applicant, art: Artifacts)
    requires forall x :: art.predictDefault(x) == 0.12
    ensures Assess(a, art).band == Risk.High
    ensures Assess(a, art).conclusion == Risk.HighConclusion
  {
  }
}
