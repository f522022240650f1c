/** The refund/owing estimate of the full questionnaire: three federal bands and
    a flat provincial rate, eleven credit subtractions, one floor at zero, then
    province climate rebate, sales-tax credit and Ontario rent credit. */
module Estimate {
  import opened Common
  import opened ClaimItData
  import opened Answers
  import opened Income

  // ---------------------------------------------------------------- bracket tax

  const FirstBandTop: real := 55867.0
  const SecondBandTop: real := 111733.0

  /** The tax formula of each band, as the estimate writes it. */
  function LowBand(x: real): real {
    x * 0.15
  }

  function MidBand(x: real): real {
    FirstBandTop * 0.15 + (x - FirstBandTop) * 0.205
  }

  function TopBand(x: real): real {
    FirstBandTop * 0.15 + (SecondBandTop - FirstBandTop) * 0.205 + (x - SecondBandTop) * 0.26
  }

  /** Marginal federal tax: 15% up to 55867, 20.5% up to 111733, 26% above. */
  function BracketTax(income: real): (r: real)
    ensures income <= FirstBandTop ==> r == 0.15 * income
    ensures 0.0 <= income ==> 0.15 * income <= r <= 0.26 * income
  {
    if income <= FirstBandTop then LowBand(income)
    else if income <= SecondBandTop then MidBand(income)
    else TopBand(income)
  }

  /** Neighbouring band formulas agree at the boundaries between them. */
  lemma BracketTaxContinuous()
    ensures LowBand(FirstBandTop) == MidBand(FirstBandTop)
    ensures MidBand(SecondBandTop) == TopBand(SecondBandTop)
  {
  }

  /** Every extra dollar of income is taxed at a rate between 15% and 26%, so the
      bracket tax is continuous and non-decreasing in income. */
  lemma BracketTaxMarginal(x: real, y: real)
    requires x <= y
    ensures 0.15 * (y - x) <= BracketTax(y) - BracketTax(x) <= 0.26 * (y - x)
  {
  }

  /** Within a band every extra dollar is taxed at that band's own rate:
      15%, 20.5% and 26%. */
  lemma BandRates(x: real, y: real)
    requires x <= y
    ensures y <= FirstBandTop ==> BracketTax(y) - BracketTax(x) == 0.15 * (y - x)
    ensures FirstBandTop <= x && y <= SecondBandTop ==> BracketTax(y) - BracketTax(x) == 0.205 * (y - x)
    ensures SecondBandTop <= x ==> BracketTax(y) - BracketTax(x) == 0.26 * (y - x)
  {
  }

  // ---------------------------------------------------------------- the credits

  const BasicPersonalCredit: real := 16129.0 * 0.15

  /** Canada employment amount, for anyone with T4 income or in quick mode. */
  function EmploymentCredit(a: AnswerSet): (r: real)
    ensures r == 0.0 || r == 1433.0 * 0.15
    ensures r != 0.0 <==> "t4" in a.incomeSources || a.mode == Some(Quick)
  {
    if "t4" in a.incomeSources || a.mode == Some(Quick) then 1433.0 * 0.15 else 0.0
  }

  /** Spousal amount. Only the 'low' bracket is credited; a spouse with no
      income ('none') gets nothing. */
  function SpousalCredit(a: AnswerSet): (r: real)
    ensures r >= 0.0 && (a.spouseIncome.value >= 0.0 ==> r <= 16129.0 * 0.15)
    ensures r > 0.0 ==> HasSpouse(a) && a.spouseIncomeBracket == Some(SpouseLow)
    ensures HasSpouse(a) && a.spouseIncomeBracket == Some(SpouseLow) && a.spouseIncome.value <= 16129.0 ==>
      r + 0.15 * a.spouseIncome.value == 16129.0 * 0.15
    ensures a.spouseIncome.value >= 16129.0 ==> r == 0.0
  {
    if HasSpouse(a) && a.spouseIncomeBracket == Some(SpouseLow) then
      Max(0.0, 16129.0 - a.spouseIncome.value) * 0.15
    else 0.0
  }

  /** Age amount, only for seniors under the income ceiling of 98309. */
  function AgeCredit(a: AnswerSet, income: real): (r: real)
    ensures r == 0.0 || r == 8790.0 * 0.15
    ensures r != 0.0 <==> IsSenior(a) && income < 98309.0
  {
    if IsSenior(a) && income < 98309.0 then 8790.0 * 0.15 else 0.0
  }

  /** RRSP deduction valued at a flat 25%. */
  function RrspDeduction(rrsp: real): (r: real)
    ensures rrsp > 0.0 ==> r == 0.25 * rrsp
    ensures rrsp <= 0.0 ==> r == 0.0
  {
    if rrsp > 0.0 then rrsp * 0.25 else 0.0
  }

  /** Childcare credit: 15% of the claim, the claim capped at 8000 per child
      under 6 and 5000 per child aged 6 to 17. */
  function ChildcareCredit(claimed: real, under6: nat, older: nat): (r: real)
    ensures 0.0 <= r <= 0.15 * (under6 * 8000 + older * 5000) as real
    ensures claimed >= 0.0 ==> r == 0.15 * Min(claimed, (under6 * 8000 + older * 5000) as real)
    ensures claimed <= 0.0 ==> r == 0.0
  {
    if claimed > 0.0 then Min(claimed, (under6 * 8000 + older * 5000) as real) * 0.15 else 0.0
  }

  /** Medical credit: 15% of what exceeds 3% of income. */
  function MedicalCredit(medical: real, income: real): (r: real)
    ensures r >= 0.0
    ensures r == 0.15 * Max(0.0, medical - 0.03 * income)
    ensures income >= 0.0 ==> r <= 0.15 * Max(0.0, medical)
  {
    if medical > income * 0.03 then (medical - income * 0.03) * 0.15 else 0.0
  }

  /** Donation credit: the first 200 at 15%, the rest at 29%. */
  function DonationCredit(d: real): (r: real)
    ensures 0.0 <= d <= 200.0 ==> r == 0.15 * d
    ensures d > 200.0 ==> r == 0.15 * 200.0 + 0.29 * (d - 200.0)
    ensures r >= 0.0 && (d >= 0.0 ==> r >= 0.15 * d)
    ensures d <= 0.0 ==> r == 0.0
  {
    if d > 0.0 then Min(d, 200.0) * 0.15 + Max(0.0, d - 200.0) * 0.29 else 0.0
  }

  /** Tuition credit: 15% of a positive amount. */
  function TuitionCredit(t: real): (r: real)
    ensures t > 0.0 ==> r == 0.15 * t
    ensures t <= 0.0 ==> r == 0.0
  {
    if t > 0.0 then t * 0.15 else 0.0
  }

  /** Work-from-home credit: 2 per day, at most 500, at 15%. */
  function WfhCredit(days: int): (r: real)
    ensures 0.0 <= r <= 0.15 * 500.0
    ensures 0 <= days <= 250 ==> r == 0.15 * 2.0 * days as real
    ensures days > 250 ==> r == 75.0
    ensures days <= 0 ==> r == 0.0
  {
    if days > 0 then Min((days * 2) as real, 500.0) * 0.15 else 0.0
  }

  /** First-time home buyer: a flat 10000 at 15% when that life situation is ticked. */
  function FirstHomeCredit(lifeChecks: seq<string>): (r: real)
    ensures r == 0.0 || r == 1500.0
    ensures r != 0.0 <==> "firstHome" in lifeChecks
  {
    if "firstHome" in lifeChecks then 10000.0 * 0.15 else 0.0
  }

  /** The eleven subtractions, in the order the estimate applies them. */
  function TotalCredits(a: AnswerSet, income: real): real {
    BasicPersonalCredit + EmploymentCredit(a) + SpousalCredit(a) + AgeCredit(a, income)
    + RrspDeduction(a.rrspContribution.value)
    + ChildcareCredit(a.childcareExpenses.value, a.kidsUnder6, a.kids6to17)
    + MedicalCredit(a.medicalExpenses.value, income)
    + DonationCredit(a.charitableDonations.value)
    + TuitionCredit(a.tuitionAmount.value)
    + WfhCredit(a.wfhDays.value)
    + FirstHomeCredit(a.lifeChecks)
  }

  /** Bracket tax plus 12% provincial tax, less every credit, floored at zero once. */
  function Liability(a: AnswerSet, income: real): (r: real)
    ensures r >= 0.0
    ensures r >= BracketTax(income) + income * 0.12 - TotalCredits(a, income)
    ensures r == 0.0 || r == BracketTax(income) + income * 0.12 - TotalCredits(a, income)
  {
    Max(0.0, BracketTax(income) + income * 0.12 - TotalCredits(a, income))
  }

  // ---------------------------------------------------------------- the benefits

  /** Climate rebate: the single amount, the spouse amount when partnered, and
      the child amount per child. Provinces outside the table get nothing. */
  function ClimateBenefit(province: Option<Province>, hasSpouse: bool, kids: nat): (r: real)
    ensures province.None? || province.value !in ClimateAction ==> r == 0.0
    ensures province.Some? && province.value in ClimateAction ==>
      r == ClimateAction[province.value].single as real * ((if hasSpouse then 2.0 else 1.0) + kids as real / 2.0)
    ensures r >= 0.0
  {
    ClimateEntriesProportional();
    if province.Some? && province.value in ClimateAction then
      var c := ClimateAction[province.value];
      c.single as real + (if hasSpouse then c.spouse as real else 0.0) + (kids * c.child) as real
    else 0.0
  }

  /** Simplified sales-tax credit below an income of 50000. */
  function SalesTaxCredit(income: real, hasSpouse: bool, kids: nat): (r: real)
    ensures income >= 50000.0 ==> r == 0.0
    ensures income < 50000.0 ==> r >= 340.0 && r == (if hasSpouse then 680.0 else 340.0) + 179.0 * kids as real
  {
    if income < 50000.0 then (if hasSpouse then 680.0 else 340.0) + (kids * 179) as real else 0.0
  }

  /** Ontario rent credit: 5% of rent plus 243, at most 1248, for Ontario
      renters only. */
  function RentCredit(a: AnswerSet): (r: real)
    ensures r <= 1248.0
    ensures r != 0.0 ==> a.province == Some(ON) && "paidRent" in a.lifeChecks
    ensures a.province == Some(ON) && "paidRent" in a.lifeChecks ==>
      r == Min(0.05 * a.rentAmount.value + 243.0, 1248.0)
    ensures a.province == Some(ON) && "paidRent" in a.lifeChecks && a.rentAmount.value >= 0.0 ==> r >= 243.0
  {
    if a.province == Some(ON) && "paidRent" in a.lifeChecks then Min(a.rentAmount.value * 0.05 + 243.0, 1248.0) else 0.0
  }

  function Kids(a: AnswerSet): nat {
    a.kidsUnder6 + a.kids6to17
  }

  function Benefits(a: AnswerSet, income: real): real {
    ClimateBenefit(a.province, HasSpouse(a), Kids(a)) + SalesTaxCredit(income, HasSpouse(a), Kids(a)) + RentCredit(a)
  }

  /** The unrounded refund: tax withheld less liability, plus the benefits. */
  function Refund(a: AnswerSet): real {
    TaxPaid(a) - Liability(a, TotalIncome(a)) + Benefits(a, TotalIncome(a))
  }

  /** The estimate shown: zero when nothing has been entered, otherwise the
      refund rounded to the nearest dollar (negative means owing). */
  function Estimate(a: AnswerSet): int {
    if TotalIncome(a) == 0.0 && TaxPaid(a) == 0.0 then 0 else Round(Refund(a))
  }

  // ---------------------------------------------------------------- the computation

  /** The first four subtractions: basic personal, employment, spousal and age amounts. */
  method SubtractPersonalAmounts(a: AnswerSet, income: real, tax0: real) returns (tax: real)
    ensures tax == tax0 - (BasicPersonalCredit + EmploymentCredit(a) + SpousalCredit(a) + AgeCredit(a, income))
  {
    tax := tax0;
    tax := tax - 16129.0 * 0.15;
    if "t4" in a.incomeSources || a.mode == Some(Quick) {
      tax := tax - 1433.0 * 0.15;
    }
    if HasSpouse(a) && a.spouseIncomeBracket == Some(SpouseLow) {
      var spousal := Max(0.0, 16129.0 - a.spouseIncome.value);
      tax := tax - spousal * 0.15;
    }
    if IsSenior(a) && income < 98309.0 {
      tax := tax - 8790.0 * 0.15;
    }
  }

  /** The other seven: RRSP, childcare, medical, donations, tuition, work from
      home and first home. */
  method SubtractClaims(a: AnswerSet, income: real, tax0: real) returns (tax: real)
    ensures tax == tax0 - (RrspDeduction(a.rrspContribution.value)
      + ChildcareCredit(a.childcareExpenses.value, a.kidsUnder6, a.kids6to17)
      + MedicalCredit(a.medicalExpenses.value, income)
      + DonationCredit(a.charitableDonations.value)
      + TuitionCredit(a.tuitionAmount.value)
      + WfhCredit(a.wfhDays.value)
      + FirstHomeCredit(a.lifeChecks))
  {
    tax := tax0;
    var rrsp := a.rrspContribution.value;
    if rrsp > 0.0 {
      tax := tax - rrsp * 0.25;
    }
    var childcare := a.childcareExpenses.value;
    if childcare > 0.0 {
      var max := (a.kidsUnder6 * 8000 + a.kids6to17 * 5000) as real;
      tax := tax - Min(childcare, max) * 0.15;
    }
    assert tax == tax0 - RrspDeduction(a.rrspContribution.value)
      - ChildcareCredit(a.childcareExpenses.value, a.kidsUnder6, a.kids6to17);
    ghost var afterDeductions := tax;
    var medical := a.medicalExpenses.value;
    if medical > income * 0.03 {
      tax := tax - (medical - income * 0.03) * 0.15;
    }
    var donations := a.charitableDonations.value;
    if donations > 0.0 {
      tax := tax - (Min(donations, 200.0) * 0.15 + Max(0.0, donations - 200.0) * 0.29);
    }
    assert tax == afterDeductions - MedicalCredit(a.medicalExpenses.value, income)
      - DonationCredit(a.charitableDonations.value);
    ghost var afterGifts := tax;
    var tuition := a.tuitionAmount.value;
    if tuition > 0.0 {
      tax := tax - tuition * 0.15;
    }
    var wfh := a.wfhDays.value;
    if wfh > 0 {
      tax := tax - Min((wfh * 2) as real, 500.0) * 0.15;
    }
    if "firstHome" in a.lifeChecks {
      tax := tax - 10000.0 * 0.15;
    }
    assert tax == afterGifts - TuitionCredit(a.tuitionAmount.value) - WfhCredit(a.wfhDays.value)
      - FirstHomeCredit(a.lifeChecks);
  }

  /** Climate rebate, sales-tax credit and Ontario rent credit, added to the refund. */
  method AddBenefits(a: AnswerSet, income: real, refund0: real) returns (refund: real)
    ensures refund == refund0 + Benefits(a, income)
  {
    refund := refund0;
    if a.province.Some? && a.province.value in ClimateAction {
      var climate := ClimateAction[a.province.value];
      refund := refund + climate.single as real;
      if HasSpouse(a) {
        refund := refund + climate.spouse as real;
      }
      refund := refund + ((a.kidsUnder6 + a.kids6to17) * climate.child) as real;
    }
    assert refund == refund0 + ClimateBenefit(a.province, HasSpouse(a), Kids(a));
    if income < 50000.0 {
      refund := refund + (if HasSpouse(a) then 680.0 else 340.0);
      refund := refund + ((a.kidsUnder6 + a.kids6to17) * 179) as real;
    }
    if a.province == Some(ON) && "paidRent" in a.lifeChecks {
      refund := refund + Min(a.rentAmount.value * 0.05 + 243.0, 1248.0);
    }
  }

  /** `estimatedRefund`, step by step as the application computes it. */
  method EstimatedRefund(a: AnswerSet) returns (estimate: int)
    ensures estimate == Estimate(a)
  {
    var income := GetTotalIncome(a);
    var taxPaid := GetTaxPaid(a);
    if income == 0.0 && taxPaid == 0.0 {
      return 0;
    }
    var tax := 0.0;
    if income <= 55867.0 {
      tax := income * 0.15;
    } else if income <= 111733.0 {
      tax := 55867.0 * 0.15 + (income - 55867.0) * 0.205;
    } else {
      tax := 55867.0 * 0.15 + (111733.0 - 55867.0) * 0.205 + (income - 111733.0) * 0.26;
    }
    tax := tax + income * 0.12;
    tax := SubtractPersonalAmounts(a, income, tax);
    tax := SubtractClaims(a, income, tax);
    tax := Max(0.0, tax);
    var refund := taxPaid - tax;
    refund := AddBenefits(a, income, refund);
    estimate := Round(refund);
  }

  // ---------------------------------------------------------------- properties

  /** With no income and nothing withheld the estimate is exactly zero, even
      where benefits would otherwise be added. */
  lemma NothingEnteredGivesZero(a: AnswerSet)
    requires TotalIncome(a) == 0.0 && TaxPaid(a) == 0.0
    ensures Estimate(a) == 0
  {
  }

  /** A fresh session estimates zero. */
  lemma InitialEstimateIsZero()
    ensures Estimate(Initial) == 0
  {
    var t4, t5 := Initial.t4Slips, Initial.t5Slips;
    assert t4 == [CreateEmptyT4(1)] && t5 == [CreateEmptyT5(1)];
    assert t4[..0] == [] && t5[..0] == [];
    assert T4IncomeSum(t4) == 0.0 && T4TaxSum(t4) == 0.0 && T5IncomeSum(t5) == 0.0;
    assert TotalIncome(Initial) == 0.0 && TaxPaid(Initial) == 0.0;
    NothingEnteredGivesZero(Initial);
  }

  /** However many credits are stacked, liability stays at or above zero, so
      before the benefits the refund never exceeds the tax withheld. */
  lemma RefundBeforeBenefitsAtMostTaxPaid(a: AnswerSet)
    ensures Refund(a) - Benefits(a, TotalIncome(a)) <= TaxPaid(a)
  {
  }

  /** Raising a credit never raises the liability: the floor is applied once, after
      every subtraction, so more credits lower the liability until it reaches zero. */
  lemma LiabilityFallsWithCredits(a: AnswerSet, b: AnswerSet, income: real)
    requires TotalCredits(a, income) <= TotalCredits(b, income)
    ensures Liability(b, income) <= Liability(a, income)
    ensures Liability(a, income) - Liability(b, income) <= TotalCredits(b, income) - TotalCredits(a, income)
  {
  }

  /** A spouse with no income ('none') earns no numeric spousal credit, although
      one with 'low' income below the threshold does. */
  lemma SpouseWithoutIncomeGetsNoCredit(a: AnswerSet)
    requires a.spouseIncomeBracket == Some(SpouseNone)
    ensures SpousalCredit(a) == 0.0
    ensures SpousalCredit(a.(spouseIncomeBracket := Some(SpouseLow))) > 0.0 <==>
      HasSpouse(a) && a.spouseIncome.value < 16129.0
  {
  }

  /** The childcare claim is capped before the rate applies: 20000 claimed for
      one child under 6 and one aged 6 to 17 is credited as 13000. */
  lemma ChildcareCapExample()
    ensures ChildcareCredit(20000.0, 1, 1) == 0.15 * 13000.0
  {
  }

  /** 1000 donated is credited as 200 at 15% and 800 at 29%, not 1000 at 15%. */
  lemma DonationExample()
    ensures DonationCredit(1000.0) == 200.0 * 0.15 + 800.0 * 0.29
    ensures DonationCredit(1000.0) != 1000.0 * 0.15
  {
  }

  /** An answer set with every optional field left empty. */
  function QuickAnswers(province: Province, income: real, taxPaid: real): AnswerSet {
    Initial.(mode := Some(Quick), province := Some(province), ageRange := Some(Age25To64),
             maritalStatus := Some(Single), quickIncome := Input("income", income),
             quickTaxPaid := Input("tax", taxPaid))
  }

  /** Quick mode, income 65000, 15000 withheld, Ontario, single, no children:
      liability 15418.015 after the basic personal and employment amounts, the
      Ontario climate amount 140, no sales-tax credit (income is not below
      50000): an amount owing of 278. */
  lemma QuickOntarioScenario()
    ensures Estimate(QuickAnswers(ON, 65000.0, 15000.0)) == -278
  {
    var a := QuickAnswers(ON, 65000.0, 15000.0);
    assert TotalIncome(a) == 65000.0 && TaxPaid(a) == 15000.0;
    assert Liability(a, 65000.0) == 15418.015;
    assert Benefits(a, 65000.0) == 140.0;
  }

  /** Detailed mode, one T4 with 80000 income and 18000 withheld, married with a
      spouse who has no income, Alberta: no spousal credit (the 'none' bracket is
      not credited), the Alberta single and spouse climate amounts are added:
      an amount owing of 749. */
  lemma DetailedAlbertaScenario()
    ensures
      var slip := CreateEmptyT4(1).(boxes := CreateEmptyT4(1).boxes.(
        box14Income := Input("80000", 80000.0), box22TaxDeducted := Input("18000", 18000.0)));
      var a := Initial.(mode := Some(Detailed), province := Some(AB), ageRange := Some(Age25To64),
        maritalStatus := Some(Married), spouseIncomeBracket := Some(SpouseNone),
        incomeSources := ["t4"], t4Slips := [slip]);
      SpousalCredit(a) == 0.0 && Estimate(a) == -749
  {
    var slip := CreateEmptyT4(1).(boxes := CreateEmptyT4(1).boxes.(
      box14Income := Input("80000", 80000.0), box22TaxDeducted := Input("18000", 18000.0)));
    var a := Initial.(mode := Some(Detailed), province := Some(AB), ageRange := Some(Age25To64),
      maritalStatus := Some(Married), spouseIncomeBracket := Some(SpouseNone),
      incomeSources := ["t4"], t4Slips := [slip]);
    assert [slip][..0] == [];
    assert a.t5Slips[..0] == [];
    assert T4IncomeSum([slip]) == 80000.0 && T4TaxSum([slip]) == 18000.0;
    assert T5IncomeSum(a.t5Slips) == 0.0;
    assert TotalIncome(a) == 80000.0 && TaxPaid(a) == 18000.0;
    assert Liability(a, 80000.0) == 20293.015;
    assert Benefits(a, 80000.0) == 1544.0;
  }
}
