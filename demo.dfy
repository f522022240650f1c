/** The demo questionnaire: its own short table of climate amounts, a running
    estimate built from a flat 25% rate plus boosts, and a step counter that
    auto-advances past the T4 screen (step 6) and the spouse screen (step 7)
    when they do not apply. */
module Demo {
  import opened Common
  import opened ClaimItData
  import opened Answers
  import opened Tags

  /** The demo's climate table covers four provinces only. */
  const DemoClimateAction: map<Province, ClimateAmounts> := map[
    ON := ClimateAmounts(140, 140, 70),
    AB := ClimateAmounts(772, 772, 386),
    SK := ClimateAmounts(680, 680, 340),
    MB := ClimateAmounts(528, 528, 264)
  ]

  /** The demo's answers that enter its estimate and its navigation. */
  datatype DemoAnswers = DemoAnswers(
    province: Option<Province>,
    maritalStatus: Option<MaritalStatus>,
    kidsUnder6: nat,
    kids6to17: nat,
    incomeSources: seq<string>,
    employmentIncome: Input<real>,
    taxDeducted: Input<real>,
    spouseIncome: Input<real>,
    lifeChecks: seq<string>,
    rentAmount: Input<real>,
    rrspAmount: Input<real>)

  const DemoInitial: DemoAnswers := DemoAnswers(
    None, None, 0, 0, [], BlankAmount, BlankAmount, BlankAmount, [], BlankAmount, BlankAmount)

  /** What the spouse screen stores: the words 'high' and 'low', which do not
      parse as numbers and so read as 0. */
  const SpouseOver15k: Input<real> := Input("high", 0.0)
  const SpouseUnder15k: Input<real> := Input("low", 0.0)

  // ---------------------------------------------------------------- specification

  /** Tax withheld beyond a flat 25% of income, never negative. */
  function OverWithheld(income: real, tax: real): (r: real)
    ensures r >= 0.0 && r >= tax - 0.25 * income
    ensures r == 0.0 || r == tax - 0.25 * income
  {
    Max(0.0, tax - income * 0.25)
  }

  /** 1500 for a married user (not common-law) whose spouse income reads below 15000. */
  function SpouseBoost(d: DemoAnswers): (r: real)
    ensures r == 0.0 || r == 1500.0
    ensures r == 1500.0 <==> d.maritalStatus == Some(Married) && d.spouseIncome.value < 15000.0
  {
    if d.maritalStatus == Some(Married) && d.spouseIncome.value < 15000.0 then 1500.0 else 0.0
  }

  /** The per-child climate amount, 70 when the table's is zero. */
  function ChildAmount(c: ClimateAmounts): int {
    if c.child != 0 then c.child else 70
  }

  /** Climate amounts: single, spouse for a married user only, and the child
      amount per child; nothing outside the four-province table. */
  function DemoClimate(d: DemoAnswers): (r: real)
    ensures d.province.None? || d.province.value !in DemoClimateAction ==> r == 0.0
    ensures d.province.Some? && d.province.value in DemoClimateAction ==>
      var c := DemoClimateAction[d.province.value];
      r == c.single as real + (if d.maritalStatus == Some(Married) then c.spouse as real else 0.0)
        + (d.kidsUnder6 + d.kids6to17) as real * c.child as real
    ensures r >= 0.0
  {
    if d.province.Some? && d.province.value in DemoClimateAction then
      var c := DemoClimateAction[d.province.value];
      c.single as real + (if d.maritalStatus == Some(Married) then c.spouse as real else 0.0)
      + ((d.kidsUnder6 + d.kids6to17) * ChildAmount(c)) as real
    else 0.0
  }

  /** 5% of rent, at most 840, for the 'rent' tag in Ontario. */
  function DemoRent(d: DemoAnswers): (r: real)
    ensures r <= 840.0
    ensures r != 0.0 ==> "rent" in d.lifeChecks && d.province == Some(ON)
    ensures "rent" in d.lifeChecks && d.province == Some(ON) ==> r == Min(840.0, 0.05 * d.rentAmount.value)
    ensures d.rentAmount.value >= 0.0 ==> r >= 0.0
  {
    if "rent" in d.lifeChecks && d.province == Some(ON) then Min(840.0, d.rentAmount.value * 0.05) else 0.0
  }

  /** 30% of a positive RRSP amount. */
  function DemoRrsp(d: DemoAnswers): (r: real)
    ensures d.rrspAmount.value > 0.0 ==> r == 0.3 * d.rrspAmount.value
    ensures d.rrspAmount.value <= 0.0 ==> r == 0.0
  {
    if d.rrspAmount.value > 0.0 then d.rrspAmount.value * 0.30 else 0.0
  }

  /** The running estimate: zero unless both income and tax are positive,
      otherwise the rounded sum of the parts. */
  function DemoEstimate(d: DemoAnswers): int {
    var income := d.employmentIncome.value;
    var tax := d.taxDeducted.value;
    if income > 0.0 && tax > 0.0 then
      Round(OverWithheld(income, tax) + SpouseBoost(d) + DemoClimate(d) + DemoRent(d) + DemoRrsp(d))
    else 0
  }

  // ---------------------------------------------------------------- the computation

  /** `runningEstimate`, accumulating `refund` as the demo does. */
  method RunningEstimate(d: DemoAnswers) returns (estimate: int)
    ensures estimate == DemoEstimate(d)
  {
    var refund := 0.0;
    var income := d.employmentIncome.value;
    var tax := d.taxDeducted.value;
    if income > 0.0 && tax > 0.0 {
      var estimatedTax := income * 0.25;
      refund := Max(0.0, tax - estimatedTax);
      if d.maritalStatus == Some(Married) && d.spouseIncome.value < 15000.0 {
        refund := refund + 1500.0;
      }
      assert refund == OverWithheld(income, tax) + SpouseBoost(d);
      if d.province.Some? && d.province.value in DemoClimateAction {
        var climate := DemoClimateAction[d.province.value];
        refund := refund + climate.single as real;
        if d.maritalStatus == Some(Married) {
          refund := refund + climate.spouse as real;
        }
        refund := refund + ((d.kidsUnder6 + d.kids6to17) * (if climate.child != 0 then climate.child else 70)) as real;
      }
      assert refund == OverWithheld(income, tax) + SpouseBoost(d) + DemoClimate(d);
      if "rent" in d.lifeChecks && d.province == Some(ON) {
        refund := refund + Min(840.0, d.rentAmount.value * 0.05);
      }
      var rrsp := d.rrspAmount.value;
      if rrsp > 0.0 {
        refund := refund + rrsp * 0.30;
      }
    }
    estimate := Round(refund);
  }

  // ---------------------------------------------------------------- properties

  /** No estimate until both income and tax withheld are positive. */
  lemma ZeroUntilIncomeAndTax(d: DemoAnswers)
    requires d.employmentIncome.value <= 0.0 || d.taxDeducted.value <= 0.0
    ensures DemoEstimate(d) == 0
  {
  }

  /** With a non-negative rent amount the estimate is never an amount owing. */
  lemma DemoEstimateNonNegative(d: DemoAnswers)
    requires d.rentAmount.value >= 0.0
    ensures DemoEstimate(d) >= 0
  {
  }

  /** Either answer on the spouse screen, or none, reads as no spouse income,
      so every married user gets the 1500 boost; a common-law partner never does. */
  lemma MarriedAlwaysGetsBoost(d: DemoAnswers)
    requires d.spouseIncome in {SpouseOver15k, SpouseUnder15k, BlankAmount}
    ensures d.maritalStatus == Some(Married) ==> SpouseBoost(d) == 1500.0
    ensures d.maritalStatus == Some(CommonLaw) ==> SpouseBoost(d) == 0.0
  {
  }

  /** The two climate tables agree wherever the demo's has an entry, and the
      demo's misses the other four provinces that have one. */
  lemma DemoClimateIsPartOfTable()
    ensures forall p :: p in DemoClimateAction ==> p in ClimateAction && DemoClimateAction[p] == ClimateAction[p]
    ensures forall p :: p in ClimateAction && p !in DemoClimateAction <==> p in {NB, NS, PE, NL}
  {
  }

  // ---------------------------------------------------------------- navigation

  /** The demo's screens by step; every step from 8 on shows the results. */
  datatype DemoScreen = Welcome | ProvinceStep | MaritalStep | KidsStep | NewcomerStep
    | IncomeSourcesStep | T4Step | SpouseStep | DemoResults

  function ScreenAt(step: nat): (r: DemoScreen)
    ensures r == IncomeSourcesStep <==> step == 5
    ensures r == T4Step <==> step == 6
    ensures r == SpouseStep <==> step == 7
    ensures r == DemoResults <==> step >= 8
  {
    if step == 0 then Welcome
    else if step == 1 then ProvinceStep
    else if step == 2 then MaritalStep
    else if step == 3 then KidsStep
    else if step == 4 then NewcomerStep
    else if step == 5 then IncomeSourcesStep
    else if step == 6 then T4Step
    else if step == 7 then SpouseStep
    else DemoResults
  }

  /** A step at which rendering does not advance by itself. */
  predicate Settled(step: nat, hasT4: bool, partnered: bool) {
    !(step == 6 && !hasT4) && !(step == 7 && !partnered)
  }

  /** Where repeated rendering comes to rest: past step 6 without a T4 source,
      then past step 7 without a partner. */
  function Settle(step: nat, hasT4: bool, partnered: bool): (r: nat)
    ensures Settled(r, hasT4, partnered)
    ensures step <= r <= step + 2
    ensures forall k :: step <= k < r ==> !Settled(k, hasT4, partnered)
    ensures Settled(step, hasT4, partnered) ==> r == step
  {
    var s := if step == 6 && !hasT4 then 7 else step;
    if s == 7 && !partnered then 8 else s
  }

  /** The demo's `prevStep`: one back, never below zero. */
  function PrevStep(step: nat): (r: nat)
    ensures step > 0 ==> r == step - 1
    ensures step == 0 ==> r == 0
  {
    if step > 0 then step - 1 else 0
  }

  /** One questionnaire session: the step counter and the answers so far. */
  class DemoSession {
    var step: nat
    var answers: DemoAnswers

    constructor ()
      ensures step == 0 && answers == DemoInitial
    {
      step := 0;
      answers := DemoInitial;
    }

    function HasT4(): bool
      reads this
    {
      "t4" in answers.incomeSources
    }

    function IsPartnered(): bool
      reads this
    {
      Partnered(answers.maritalStatus)
    }

    /** The Continue button. */
    method NextStep()
      modifies this
      ensures step == old(step) + 1 && answers == old(answers)
    {
      step := step + 1;
    }

    /** The Back button. */
    method Back()
      modifies this
      ensures step == PrevStep(old(step)) && answers == old(answers)
    {
      step := PrevStep(step);
    }

    method ToggleLifeCheck(item: string)
      modifies this
      ensures step == old(step)
      ensures answers == old(answers).(lifeChecks := Toggle(old(answers).lifeChecks, item))
    {
      answers := answers.(lifeChecks := Toggle(answers.lifeChecks, item));
    }

    method ToggleIncomeSource(source: string)
      modifies this
      ensures step == old(step)
      ensures answers == old(answers).(incomeSources := Toggle(old(answers).incomeSources, source))
    {
      answers := answers.(incomeSources := Toggle(answers.incomeSources, source));
    }

    /** Rendering: at step 6 without a T4 source, and at step 7 without a
        partner, the screen calls `nextStep` and renders again; otherwise it
        shows the screen of the step it rests on. */
    method Render() returns (screen: DemoScreen)
      modifies this
      ensures step == Settle(old(step), HasT4(), IsPartnered()) && answers == old(answers)
      ensures screen == ScreenAt(step)
      ensures screen == T4Step ==> HasT4()
      ensures screen == SpouseStep ==> IsPartnered()
    {
      ghost var start := step;
      while (step == 6 && !HasT4()) || (step == 7 && !IsPartnered())
        invariant answers == old(answers)
        invariant start <= step
        invariant Settle(step, HasT4(), IsPartnered()) == Settle(start, HasT4(), IsPartnered())
        decreases 8 - step
      {
        NextStep();
      }
      screen := ScreenAt(step);
    }
  }

  // ---------------------------------------------------------------- a finding

  /** As written, Back on the spouse screen for a married or common-law user
      without a T4 source lands on step 6, whose render advances straight back
      to step 7: the button does nothing. */
  lemma BackBouncesFromSpouseScreen()
    ensures Settled(7, false, true)
    ensures Settle(PrevStep(7), false, true) == 7
  {
  }

  /** Back as evidently intended: one step back, then further back past any
      screen that would advance by itself. */
  function CorrectedBack(step: nat, hasT4: bool, partnered: bool): (r: nat)
    ensures r <= step && (step > 0 ==> r < step)
    ensures Settled(r, hasT4, partnered)
    ensures forall k :: r < k < step ==> !Settled(k, hasT4, partnered)
  {
    var s := PrevStep(step);
    var s := if s == 7 && !partnered then 6 else s;
    if s == 6 && !hasT4 then 5 else s
  }

  /** Corrected, Back always leaves the current screen for the nearest earlier
      one that is shown, and rendering keeps it there. */
  lemma CorrectedBackMovesBack(step: nat, hasT4: bool, partnered: bool)
    requires step > 0
    ensures Settle(CorrectedBack(step, hasT4, partnered), hasT4, partnered) < step
    ensures ScreenAt(Settle(CorrectedBack(step, hasT4, partnered), hasT4, partnered)) != ScreenAt(step) || step > 8
  {
  }
}
