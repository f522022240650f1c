/** The answer set the questionnaire collects and the estimate engine reads. */
module Answers {
  import opened Common
  import opened ClaimItData

  datatype AgeRange = Under25 | Age25To64 | Age65Plus
  datatype MaritalStatus = Single | Married | CommonLaw | Separated

  /** The spouse-income choices 'none', 'low' (under 17000) and 'high'. */
  datatype SpouseBracket = SpouseNone | SpouseLow | SpouseHigh

  /** A gross-amount / expenses pair (self-employment or rental income). */
  datatype Business = Business(gross: Input<real>, expenses: Input<real>)

  /** Every answer that enters the estimate or the results lists. Fields the
      application collects but never computes with are not part of it. */
  datatype AnswerSet = AnswerSet(
    mode: Option<Mode>,
    taxYear: int,
    province: Option<Province>,
    ageRange: Option<AgeRange>,
    maritalStatus: Option<MaritalStatus>,
    spouseIncomeBracket: Option<SpouseBracket>,
    spouseIncome: Input<real>,
    kidsUnder6: nat,
    kids6to17: nat,
    incomeSources: seq<string>,
    t4Slips: seq<T4Slip>,
    t5Slips: seq<T5Slip>,
    selfEmployment: Business,
    rentalIncome: Business,
    quickIncome: Input<real>,
    quickTaxPaid: Input<real>,
    rrspContribution: Input<real>,
    childcareExpenses: Input<real>,
    lifeChecks: seq<string>,
    rentAmount: Input<real>,
    wfhDays: Input<int>,
    medicalExpenses: Input<real>,
    charitableDonations: Input<real>,
    tuitionAmount: Input<real>)

  /** Married or common-law. */
  predicate Partnered(m: Option<MaritalStatus>) {
    m == Some(Married) || m == Some(CommonLaw)
  }

  predicate HasSpouse(a: AnswerSet) {
    Partnered(a.maritalStatus)
  }

  predicate IsSenior(a: AnswerSet) {
    a.ageRange == Some(Age65Plus)
  }

  /** The state at the start of a session: nothing chosen, tax year 2025, one
      blank slip of each kind with id 1, every field empty. */
  const Initial: AnswerSet := AnswerSet(
    None, 2025, None, None, None, None, BlankAmount, 0, 0, [],
    [CreateEmptyT4(1)], [CreateEmptyT5(1)],
    Business(BlankAmount, BlankAmount), Business(BlankAmount, BlankAmount),
    BlankAmount, BlankAmount, BlankAmount, BlankAmount,
    [], BlankAmount, BlankCount, BlankAmount, BlankAmount, BlankAmount)

  /** A fresh session has chosen nothing: no mode, province, age, status or
      spouse bracket, no children, no income sources and no life situations;
      the tax year is 2025; each slip list holds one blank slip with id 1; and
      every text field is empty. */
  lemma InitialIsBlank()
    ensures Initial.mode.None? && Initial.taxYear == 2025
    ensures Initial.province.None? && Initial.ageRange.None? && Initial.maritalStatus.None?
    ensures Initial.spouseIncomeBracket.None? && !Entered(Initial.spouseIncome)
    ensures Initial.kidsUnder6 == 0 && Initial.kids6to17 == 0
    ensures Initial.incomeSources == [] && Initial.lifeChecks == []
    ensures Initial.t4Slips == [CreateEmptyT4(1)] && Initial.t5Slips == [CreateEmptyT5(1)]
    ensures !Entered(Initial.quickIncome) && !Entered(Initial.quickTaxPaid)
    ensures !Entered(Initial.rrspContribution) && !Entered(Initial.childcareExpenses)
    ensures !Entered(Initial.rentAmount) && !Entered(Initial.wfhDays)
    ensures !Entered(Initial.medicalExpenses) && !Entered(Initial.charitableDonations) && !Entered(Initial.tuitionAmount)
    ensures !Entered(Initial.selfEmployment.gross) && !Entered(Initial.selfEmployment.expenses)
    ensures !Entered(Initial.rentalIncome.gross) && !Entered(Initial.rentalIncome.expenses)
  {
  }
}
