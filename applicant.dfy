/** The applicant's details as the dashboard's input widgets deliver them
    (dashboard/app.py lines 46-56), and the one-row frame built from them
    (lines 61-72). */
module Applicant {
  import opened Frame

  /** One applicant.  The number inputs give integers, the slider a float,
      the select boxes strings; the widgets' ranges are not enforced here. */
  datatype Applicant = Applicant(
    personAge: int,
    personIncome: int,
    loanAmnt: int,
    loanPercentIncome: real,
    credHistLength: int,
    homeOwnership: string,
    loanIntent: string,
    loanGrade: string,
    defaultOnFile: string)

  /** The numeric columns, under the names the trained model knows them by
      (including the model's own spelling "cb_preson_cred_hist_length"). */
  const NumericCols: seq<string> :=
    ["person_age", "person_income", "loan_amnt", "loan_percent_income", "cb_preson_cred_hist_length"]

  /** `cat_cols` (line 75): the columns that are one-hot encoded. */
  const CatCols: seq<string> :=
    ["person_home_ownership", "loan_intent", "loan_grade", "cb_person_default_on_file"]

  /** The numeric part of the input frame, in input order. */
  function NumericRow(a: Applicant): Row
  {
    [ ("person_age", IntCell(a.personAge)),
      ("person_income", IntCell(a.personIncome)),
      ("loan_amnt", IntCell(a.loanAmnt)),
      ("loan_percent_income", RealCell(a.loanPercentIncome)),
      ("cb_preson_cred_hist_length", IntCell(a.credHistLength)) ]
  }

  /** The categorical part of the input frame, in input order. */
  function CategoricalRow(a: Applicant): Row
  {
    [ ("person_home_ownership", StrCell(a.homeOwnership)),
      ("loan_intent", StrCell(a.loanIntent)),
      ("loan_grade", StrCell(a.loanGrade)),
      ("cb_person_default_on_file", StrCell(a.defaultOnFile)) ]
  }

  /** `pd.DataFrame([input_dict])` (lines 61-72): the nine inputs as one row,
      numeric columns first, then the categorical ones, in dictionary order;
      every categorical column holds a string. */
  function InputRow(a: Applicant): (r: Row)
    ensures Names(r) == NumericCols + CatCols
    ensures forall c :: c in CatCols ==> c in Names(r) && Lookup(r, c).StrCell?
  {
    NumericRow(a) + CategoricalRow(a)
  }
}
