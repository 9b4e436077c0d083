/** The advisory rule engine of dashboard/app.py (lines 159-191): five
    independent yes/no rules over the raw applicant inputs, each adding one
    of two fixed sentences to `advice_points` in a fixed order, then one
    conclusion chosen by the risk band alone (that last step is
    `Risk.Conclusion`). */
module Advisor {
  import opened Applicant

  /** A rule's two possible sentences. */
  datatype Rule = Rule(favourable: string, unfavourable: string)

  /** The sentence a rule contributes, given whether the applicant passes it. */
  function Choose(rule: Rule, passes: bool): string
  {
    if passes then rule.favourable else rule.unfavourable
  }

  /** Lines 161-164: repayment capacity. */
  const IncomeRule: Rule := Rule(
    "Your higher income indicates strong repayment ability.",
    "Consider increasing income or reducing expenses to strengthen repayment capacity.")

  /** Lines 166-169: loan size against income. */
  const LoanRule: Rule := Rule(
    "Your loan amount seems reasonable compared to your income level.",
    "Your requested loan is high relative to income \U{2014} consider borrowing less or preparing a solid repayment plan.")

  /** Lines 171-174: length of the credit history. */
  const HistoryRule: Rule := Rule(
    "Your credit history length supports your credibility as a borrower.",
    "A longer credit history would improve future approvals.")

  /** Lines 176-179: defaults on file. */
  const DefaultRule: Rule := Rule(
    "No previous defaults \U{2014} this is a positive sign for approval.",
    "Previous defaults raise concerns \U{2014} maintaining timely payments will help rebuild trust.")

  /** Lines 181-184: the loan grade. */
  const GradeRule: Rule := Rule(
    "Your good credit grade strengthens your profile.",
    "Improving your credit grade would reduce risk and improve approval chances.")

  /** The rules in presentation order. */
  const Rules: seq<Rule> := [IncomeRule, LoanRule, HistoryRule, DefaultRule, GradeRule]

  /** The rule thresholds (lines 161, 166, 171, 176 and 181). */
  const IncomeThreshold: int := 400000
  const MinHistoryYears: int := 2
  const DefaultFlag: string := "Y"
  const GoodGrades: seq<string> := ["A", "B"]

  /** Whether the applicant passes each rule, in rule order, with the
      loan-to-income test stated over integers: a loan passes when twice
      its amount does not exceed the income. */
  function Verdicts(a: Applicant): seq<bool>
  {
    [ a.personIncome > IncomeThreshold,
      2 * a.loanAmnt <= a.personIncome,
      a.credHistLength >= MinHistoryYears,
      a.defaultOnFile != DefaultFlag,
      a.loanGrade in GoodGrades ]
  }

  /** The advice list: each rule's sentence for its verdict, in rule order. */
  function Advice(a: Applicant): seq<string>
  {
    var v := Verdicts(a);
    seq(5, k requires 0 <= k < 5 => Choose(Rules[k], v[k]))
  }

  /** Lines 159-184 as written: an empty list and five appends, with the
      loan test made as in app.py, the loan compared with half the
      income as a real number. */
  method BuildAdvice(a: Applicant) returns (advicePoints: seq<string>)
    ensures advicePoints == Advice(a)
  {
    advicePoints := [];
    if a.personIncome > IncomeThreshold {
      advicePoints := advicePoints + [IncomeRule.favourable];
    } else {
      advicePoints := advicePoints + [IncomeRule.unfavourable];
    }
    if a.loanAmnt as real > a.personIncome as real * 0.5 {
      advicePoints := advicePoints + [LoanRule.unfavourable];
    } else {
      advicePoints := advicePoints + [LoanRule.favourable];
    }
    if a.credHistLength < MinHistoryYears {
      advicePoints := advicePoints + [HistoryRule.unfavourable];
    } else {
      advicePoints := advicePoints + [HistoryRule.favourable];
    }
    if a.defaultOnFile == DefaultFlag {
      advicePoints := advicePoints + [DefaultRule.unfavourable];
    } else {
      advicePoints := advicePoints + [DefaultRule.favourable];
    }
    if a.loanGrade in GoodGrades {
      advicePoints := advicePoints + [GradeRule.favourable];
    } else {
      advicePoints := advicePoints + [GradeRule.unfavourable];
    }
  }

  /** The list always has five items, item k one of rule k's two sentences,
      and item k is the favourable one exactly when the applicant passes
      rule k: the two sentences of every rule differ. */
  lemma AdviceFollowsVerdicts(a: Applicant)
    ensures |Advice(a)| == 5
    ensures forall k :: 0 <= k < 5 ==>
      Advice(a)[k] in [Rules[k].favourable, Rules[k].unfavourable]
    ensures forall k :: 0 <= k < 5 ==>
      (Advice(a)[k] == Rules[k].favourable <==> Verdicts(a)[k])
  {
    assert forall k :: 0 <= k < 5 ==> Rules[k].favourable != Rules[k].unfavourable by {
      assert IncomeRule.favourable != IncomeRule.unfavourable;
      assert LoanRule.favourable != LoanRule.unfavourable;
      assert HistoryRule.favourable != HistoryRule.unfavourable;
      assert DefaultRule.favourable != DefaultRule.unfavourable;
      assert GradeRule.favourable != GradeRule.unfavourable;
    }
  }

  /** The behaviour at each rule's boundary: an income of exactly 400000 is
      not high, a loan of exactly half the income is reasonable, exactly
      two years of history suffice, only "Y" is a default on file, and only
      grades A and B are good. */
  lemma AdviceBoundaries(a: Applicant)
    ensures a.personIncome == 400000 ==> Advice(a)[0] == IncomeRule.unfavourable
    ensures 2 * a.loanAmnt == a.personIncome ==> Advice(a)[1] == LoanRule.favourable
    ensures a.credHistLength == 2 ==> Advice(a)[2] == HistoryRule.favourable
    ensures Advice(a)[3] == DefaultRule.unfavourable <==> a.defaultOnFile == "Y"
    ensures Advice(a)[4] == GradeRule.favourable <==> a.loanGrade == "A" || a.loanGrade == "B"
  {
    AdviceFollowsVerdicts(a);
    assert Verdicts(a)[3] == (a.defaultOnFile != "Y");
    assert Verdicts(a)[4] == (a.loanGrade == "A" || a.loanGrade == "B");
  }

  /** Each item depends only on its own rule's inputs: changing the inputs
      of one rule leaves every other item as it was (the income feeds both
      the income and the loan rule). */
  lemma RulesIndependent(a: Applicant, b: Applicant)
    ensures a.personIncome == b.personIncome ==> Advice(a)[0] == Advice(b)[0]
    ensures a.personIncome == b.personIncome && a.loanAmnt == b.loanAmnt ==> Advice(a)[1] == Advice(b)[1]
    ensures a.credHistLength == b.credHistLength ==> Advice(a)[2] == Advice(b)[2]
    ensures a.defaultOnFile == b.defaultOnFile ==> Advice(a)[3] == Advice(b)[3]
    ensures a.loanGrade == b.loanGrade ==> Advice(a)[4] == Advice(b)[4]
  {
  }

  /** The script's loan test `loan_amnt > person_income * 0.5` fails exactly
      when the integer test of `Verdicts` passes. */
  lemma LoanTestExact(loanAmnt: int, personIncome: int)
    ensures !(loanAmnt as real > personIncome as real * 0.5) <==> 2 * loanAmnt <= personIncome
  {
  }
}
