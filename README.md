# Smart loan risk dashboard: decision core in Dafny

This project models the decision logic of the Streamlit dashboard
`dashboard/app.py` of the Smart Loan Approval & Risk Scoring System. For one
applicant, the dashboard:

1. builds a one-row frame from five numeric and four categorical inputs;
2. one-hot encodes it with `pd.get_dummies(..., drop_first=True)`;
3. reconciles it with the trained model's ordered feature schema
   `feature_cols`, zero-filling missing columns and then selecting exactly
   the schema;
4. scales the row when the model is a logistic regression, and feeds the
   same data to the SHAP explainer;
5. cuts the default probability into Low / Medium / High at 5 % and 10 %,
   which fixes a colour, a context phrase and a conclusion;
6. builds five advice sentences from fixed yes/no rules over the raw inputs.

Modules, one per component:

- `Frame` (frame.dfy): a one-row DataFrame is a sequence of (name, cell)
  pairs, with column lookup and `frame[cols]` selection.
- `Applicant` (applicant.dfy): the widget values and the input frame.
- `Encoder` (encoder.dfy): `get_dummies`, the zero-fill loop (a method with
  a loop invariant, proved against the `ZeroFilled` function) and the
  projection onto the schema.
- `ModelAdapter` (adapter.dfy): the `is_linear` substring test, the
  scaled/unscaled choice and the explainer's input.
- `Risk` (risk.dfy): band, label, colour, context phrase and conclusion.
- `Advisor` (advisor.dfy): the five rules. The list is built by a method
  with five appends and proved equal to a reference definition. That
  definition states the loan rule over integers.
- `Dashboard` (dashboard.dfy): one evaluation end to end.

The model follows the code where it differs from the system's design notes.

- The design describes a drop-first encoder that keeps an indicator for
  every non-reference category. The code applies `get_dummies` to a
  one-row frame, and there `drop_first` drops the only category seen in
  each column. No indicator column survives, so every categorical feature
  of the schema is zero-filled. The encoded row therefore does not depend
  on home ownership, loan intent, grade or default flag
  (`Encoder.EncodingIgnoresCategories`). The model reproduces this.
- The design names the errors `UnknownCategoryValue`, `EmptySchema`,
  `SchemaMismatch`, `UnsupportedModelFamily` and `ProbabilityOutOfRange`.
  The code raises none of them, and the model has none of them either.
  Unknown category strings are accepted. An empty schema gives an empty
  row. Any type string without "LogisticRegression" counts as the tree
  family.

## Model

| member | source | states |
|---|---|---|
| `Frame.Lookup` | dashboard/app.py:82 | the value found for a name is the cell of a column carrying that name |
| `Frame.Select` | dashboard/app.py:82 | `frame[cols]` has exactly the columns `cols` in that order, each holding the frame's value under that name |
| `Applicant.InputRow` | dashboard/app.py:61-72 | the input frame's columns are the five numeric then the four categorical inputs, in dictionary order, the categorical ones holding strings |
| `Encoder.GetDummies` | dashboard/app.py:75-76 | with `drop_first` on a one-row frame, get_dummies leaves only the unencoded columns; without it, the unencoded columns come first and then, per encoded column in order, one indicator named column + "_" + value holding true |
| `Encoder.OneIndicatorPerColumn` | dashboard/app.py:75-76 | without `drop_first`, the indicator blocks of a one-row frame are one column per encoded column, named column + "_" + value and holding true |
| `Encoder.DropFirstLeavesNoIndicators` | dashboard/app.py:76 | with `drop_first`, every encoded column of a one-row frame contributes no indicator column |
| `Encoder.EncodedInputIsNumeric` | dashboard/app.py:61-76 | the dashboard's encoded frame is exactly the five numeric inputs under their own names, unchanged |
| `Encoder.ZeroFilled` | dashboard/app.py:79-81 | after the zero-fill loop, the original frame is an unchanged prefix, every added column is a fresh name holding 0, and the columns are the frame's plus the schema's |
| `Encoder.AddMissingColumns` | dashboard/app.py:79-81 | the column-by-column loop produces exactly the zero-filled frame |
| `Encoder.ZeroFilledLookup` | dashboard/app.py:79-81 | after zero fill, a produced name keeps its produced value and a schema-only name reads 0 |
| `Encoder.Project` | dashboard/app.py:79-82 | zero fill then selection never fails: the columns are the schema in order, produced names keep their values, missing ones are 0, unlisted ones are dropped |
| `Encoder.EncodedRow` | dashboard/app.py:72-82 | the encoded row's column names equal `feature_cols` exactly, whatever the inputs |
| `Encoder.EncodedRowValues` | dashboard/app.py:61-82 | every encoded column holds the numeric input of that name or 0; all categorical indicators are 0 |
| `Encoder.EncodingIgnoresCategories` | dashboard/app.py:67-82 | applicants with equal numeric inputs encode identically, whatever their categorical inputs |
| `Encoder.EncodeInput` | dashboard/app.py:72-82 | building, encoding, zero-filling and selecting yields the encoded row |
| `ModelAdapter.Contains` | dashboard/app.py:17 | Python's substring `in` holds exactly when the pattern occurs at some position |
| `ModelAdapter.FamilyOf` | dashboard/app.py:17 | the model is linear exactly when its type string contains "LogisticRegression" |
| `ModelAdapter.SklearnLogisticRegressionIsLinear` | dashboard/app.py:17 | scikit-learn's LogisticRegression type string is classified linear |
| `ModelAdapter.PrepareInput` | dashboard/app.py:85 | the prepared input is the scaled encoded row exactly when the model is linear, otherwise the encoded row itself |
| `ModelAdapter.ExplainerInput` | dashboard/app.py:136 | the tree explainer is given the unscaled encoded row, the generic explainer the prepared input |
| `ModelAdapter.ExplainerSeesModelInput` | dashboard/app.py:136 | the explainer is fed exactly the input `predict_proba` is fed |
| `ModelAdapter.ExplainerFor` | dashboard/app.py:20 | the generic explainer is used exactly for the linear model, the tree explainer otherwise |
| `ModelAdapter.ExplainerMatchesItsInput` | dashboard/app.py:20-136 | the tree explainer receives exactly the unscaled encoded row and the generic explainer exactly the scaler's output, each only in its own case |
| `Risk.Percent` | dashboard/app.py:92-98 | the percentage is below 5 exactly when the probability is below 0.05, and below 10 exactly when it is below 0.10 |
| `Risk.Classify` | dashboard/app.py:92-103 | Low iff probability < 0.05, Medium iff 0.05 <= probability < 0.10, High iff probability >= 0.10 |
| `Risk.ClassifyMonotone` | dashboard/app.py:95-103 | a larger probability never gives a less severe band |
| `Risk.ClassifyBoundaries` | dashboard/app.py:95-103 | 0.049999 is Low, 0.05 and 0.099999 are Medium, 0.10 is High |
| `Risk.Label` | dashboard/app.py:95-103 | the category is one of "Low Risk", "Medium Risk", "High Risk", and is "High Risk" ("Medium Risk") exactly for the High (Medium) band |
| `Risk.Colour` | dashboard/app.py:95-103 | the colour is one of green, yellow, red, green exactly for Low and red exactly for High |
| `Risk.ContextPhrase` | dashboard/app.py:106-108 | the closing phrase is one of the three fixed phrases: caution exactly for "High Risk", review exactly for "Medium Risk", the safe phrase for every other string |
| `Risk.Conclusion` | dashboard/app.py:186-191 | the conclusion is one of the three fixed sentences: the high-risk one exactly for "High Risk", the moderate one exactly for "Medium Risk", the low-risk one for every other string |
| `Risk.LabelSelectsItsCase` | dashboard/app.py:186-191 | each band's category string selects that band's own context phrase and conclusion in the string comparisons |
| `Risk.TextsIdentifyBand` | dashboard/app.py:95-108 | colour, context phrase and conclusion are each equal for two bands exactly when the bands are equal |
| `Advisor.BuildAdvice` | dashboard/app.py:159-184 | the five appends, with the loan compared to half the income as a real, produce the reference advice list |
| `Advisor.AdviceFollowsVerdicts` | dashboard/app.py:159-184 | the list has exactly five items, item k is one of rule k's two sentences, and it is the favourable one iff the applicant passes rule k |
| `Advisor.AdviceBoundaries` | dashboard/app.py:161-184 | income 400000 is not high, a loan of half the income is reasonable, two years of history suffice, only "Y" is a default, only A and B are good grades |
| `Advisor.RulesIndependent` | dashboard/app.py:161-184 | each item depends only on its own rule's inputs |
| `Advisor.LoanTestExact` | dashboard/app.py:166 | `loan_amnt > person_income * 0.5` fails exactly when `2 * loan_amnt <= person_income` |
| `Dashboard.Evaluate` | dashboard/app.py:72-191 | one evaluation, run step by step, gives the assessment function's result |
| `Dashboard.ModelInputIsEncodedRow` | dashboard/app.py:82-91 | the model receives the scaled encoded row when linear, otherwise a row over exactly the schema holding the numeric inputs and zeros |
| `Dashboard.AssessmentConsistent` | dashboard/app.py:91-191 | the band follows the probability, colour, phrase and conclusion follow the band, and the advice list has five items |
| `Dashboard.LowRiskExample` | dashboard/app.py:92-191 | an applicant aged 30 with income 500000, loan 200000, five years of history, grade A and no default, scored at 3 %, is Low risk with all five favourable items and the low-risk conclusion |
| `Dashboard.HighRiskExample` | dashboard/app.py:92-191 | any applicant scored at 12 % is High risk with the high-risk conclusion |

## Left out

- Streamlit widgets, page layout, sidebar, the "Predict Risk" button and
  markdown rendering: presentation only. The widgets' ranges (age 18-100,
  income 10000-10000000 and so on) are not imposed, because no decision
  depends on them.
- Loading the artifacts with `joblib.load`: file I/O. The model's type
  string, `predict_proba`, the scaler's `transform` and `feature_cols` are
  parameters (`Dashboard.Artifacts`).
- The internals of `predict_proba` and `scaler.transform`: foreign library
  code, taken as arbitrary functions. The probability is not constrained
  to [0, 1], because no step relies on that.
- SHAP value extraction, the base-value selection, the waterfall plot and
  the plotly gauge: wrappers over explanation and charting libraries. Only
  the explainer's kind and its input are modelled.
- Floating-point arithmetic: `probability * 100` and the loan test are
  computed over exact reals.
- Number formatting: `int(percent)` and `{percent:.2f}` are not modelled.
  Of the context message only its closing phrase is.
- Frame.Lookup: pandas returns every column of a duplicated name; the model
  takes the first. The dashboard's own frames never repeat a name.
