/** The risk classifier of dashboard/app.py (lines 92-108): the default
    probability, as a percentage, is cut at 5 and 10 into three bands; the
    band fixes the display colour and the closing phrase of the context
    message.  Probabilities are exact reals; floating-point rounding is not
    modelled. */
module Risk {

  datatype Band = Low | Medium | High

  /** Band boundaries, in percent (lines 95 and 98). */
  const LowBelowPercent: real := 5.0
  const MediumBelowPercent: real := 10.0

  /** `percent = probability * 100` (line 92). */
  function Percent(probability: real): (percent: real)
    ensures percent < LowBelowPercent <==> probability < 0.05
    ensures percent < MediumBelowPercent <==> probability < 0.10
  {
    probability * 100.0
  }

  /** Lines 95-103: Low below 5 %, Medium from 5 % up to 10 %, High from
      10 % on, restated as thresholds on the probability itself. */
  function Classify(probability: real): (b: Band)
    ensures b == Low <==> probability < 0.05
    ensures b == Medium <==> 0.05 <= probability < 0.10
    ensures b == High <==> 0.10 <= probability
  {
    var percent := Percent(probability);
    if percent < LowBelowPercent then Low
    else if percent < MediumBelowPercent then Medium
    else High
  }

  /** The severity order Low < Medium < High. */
  function Severity(b: Band): nat
  {
    match b
    case Low => 0
    case Medium => 1
    case High => 2
  }

  /** A higher probability never gives a less severe band. */
  lemma ClassifyMonotone(p: real, q: real)
    requires p <= q
    ensures Severity(Classify(p)) <= Severity(Classify(q))
  {
  }

  /** The boundaries are exact: 0.05 is already Medium and 0.10 already High. */
  lemma ClassifyBoundaries()
    ensures Classify(0.049999) == Low
    ensures Classify(0.05) == Medium
    ensures Classify(0.099999) == Medium
    ensures Classify(0.10) == High
  {
  }

  /** The `category` string of lines 96, 99 and 102. */
  function Label(b: Band): (s: string)
    ensures s in ["Low Risk", "Medium Risk", "High Risk"]
    ensures s == "High Risk" <==> b == High
    ensures s == "Medium Risk" <==> b == Medium
  {
    match b
    case Low => "Low Risk"
    case Medium => "Medium Risk"
    case High => "High Risk"
  }

  /** The `color` of lines 97, 100 and 103. */
  function Colour(b: Band): (s: string)
    ensures s in ["green", "yellow", "red"]
    ensures s == "green" <==> b == Low
    ensures s == "red" <==> b == High
  {
    match b
    case Low => "green"
    case Medium => "yellow"
    case High => "red"
  }

  /** The closing phrases of the context message (line 108). */
  const CautionPhrase: string := "proceed with caution"
  const ReviewPhrase: string := "generally safe, but review terms carefully"
  const SafePhrase: string := "you\U{2019}re in a very safe range"

  /** The conclusions of lines 187, 189 and 191. */
  const HighConclusion: string :=
    "Overall, your profile suggests **higher risk**. Reducing the loan size or improving income/credit habits could increase approval chances."
  const MediumConclusion: string :=
    "Overall, your profile suggests **moderate risk**. Proceed cautiously and review repayment terms carefully."
  const LowConclusion: string :=
    "Overall, your profile suggests **low risk**. You\U{2019}re likely to manage this loan comfortably."

  /** The closing phrase of the context message (line 108), chosen by
      comparing the category string as app.py does; every string other
      than the High and Medium labels falls to the last case. */
  function ContextPhrase(category: string): (phrase: string)
    ensures phrase in [CautionPhrase, ReviewPhrase, SafePhrase]
    ensures phrase == CautionPhrase <==> category == "High Risk"
    ensures phrase == ReviewPhrase <==> category == "Medium Risk"
  {
    if category == "High Risk" then CautionPhrase
    else if category == "Medium Risk" then ReviewPhrase
    else SafePhrase
  }

  /** The conclusion (lines 186-191), chosen from the category string in
      the same way. */
  function Conclusion(category: string): (conclusion: string)
    ensures conclusion in [HighConclusion, MediumConclusion, LowConclusion]
    ensures conclusion == HighConclusion <==> category == "High Risk"
    ensures conclusion == MediumConclusion <==> category == "Medium Risk"
  {
    if category == "High Risk" then HighConclusion
    else if category == "Medium Risk" then MediumConclusion
    else LowConclusion
  }

  /** The context phrase of each band, written per band. */
  function PhraseOf(b: Band): string
  {
    match b
    case Low => SafePhrase
    case Medium => ReviewPhrase
    case High => CautionPhrase
  }

  /** The conclusion of each band, written per band. */
  function ConclusionOf(b: Band): string
  {
    match b
    case Low => LowConclusion
    case Medium => MediumConclusion
    case High => HighConclusion
  }

  /** The label of each band reaches that band's own case of the string
      comparisons of lines 108 and 186-191. */
  lemma LabelSelectsItsCase(b: Band)
    ensures ContextPhrase(Label(b)) == PhraseOf(b)
    ensures Conclusion(Label(b)) == ConclusionOf(b)
  {
    match b
    case Low => assert Label(b) != "High Risk" && Label(b) != "Medium Risk";
    case Medium => assert Label(b) != "High Risk";
    case High =>
  }

  /** Colour, context phrase and conclusion are each one of three fixed
      values and depend on the band alone; no two bands share one, so each
      text identifies the band it came from. */
  lemma TextsIdentifyBand(b: Band, c: Band)
    ensures b == c <==> Colour(b) == Colour(c)
    ensures b == c <==> ContextPhrase(Label(b)) == ContextPhrase(Label(c))
    ensures b == c <==> Conclusion(Label(b)) == Conclusion(Label(c))
  {
    LabelSelectsItsCase(b);
    LabelSelectsItsCase(c);
    if b != c {
      assert Colour(b) != Colour(c);
      assert PhraseOf(b) != PhraseOf(c);
      assert ConclusionOf(b) != ConclusionOf(c);
    }
  }
}
