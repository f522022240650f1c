/** Step counting for the full questionnaire: how many steps the chosen path
    has, the progress percentage, and which detailed-mode screen each step
    number shows once the optional income screens are counted in. */
module Steps {
  import opened Common
  import opened ClaimItData

  /** Sources that get an investment-slip screen: T5 or T3. */
  predicate HasInvestments(sources: seq<string>) {
    "t5" in sources || "t3" in sources
  }

  function Indicator(b: bool): nat {
    if b then 1 else 0
  }

  /** `totalSteps`: 8 in quick mode; otherwise seven base steps, one per
      optional income screen selected, and three for deductions, life
      situations and results. */
  function TotalSteps(mode: Option<Mode>, sources: seq<string>): (n: nat)
    ensures mode == Some(Quick) ==> n == 8
    ensures mode != Some(Quick) ==> 10 <= n <= 13
    ensures mode != Some(Quick) && "t4" !in sources && !HasInvestments(sources) && "self" !in sources ==> n == 10
    ensures mode != Some(Quick) ==>
      n == 10 + (if "t4" in sources then 1 else 0) + (if HasInvestments(sources) then 1 else 0) + (if "self" in sources then 1 else 0)
  {
    if mode == Some(Quick) then 8
    else
      var steps := 7;
      var steps := steps + Indicator("t4" in sources);
      var steps := steps + Indicator(HasInvestments(sources));
      var steps := steps + Indicator("self" in sources);
      steps + 3
  }

  /** `progress`: zero on the welcome screen, otherwise the step as a rounded
      percentage of the total, capped at 100. */
  function Progress(step: nat, total: nat): (p: int)
    requires total > 0
    ensures 0 <= p <= 100
    ensures step == 0 ==> p == 0
    ensures 0 < step <= total ==> p == Round(step as real * 100.0 / total as real)
    ensures step >= total ==> p == 100
  {
    if step > 0 then
      var pct := Round(step as real / total as real * 100.0);
      assert step as real / total as real * 100.0 == step as real * 100.0 / total as real;
      assert step >= total ==> step as real / total as real >= 1.0 by {
        if step >= total {
          AtLeastOne(step as real, total as real);
        }
      }
      if pct < 100 then pct else 100
    else 0
  }

  lemma AtLeastOne(x: real, y: real)
    requires 0.0 < y <= x
    ensures x / y >= 1.0
  {
    assert x / y * y == x;
  }

  /** Rounding never reverses an order. */
  lemma RoundMonotone(x: real, y: real)
    requires x <= y
    ensures Round(x) <= Round(y)
  {
  }

  /** Dividing by a positive number preserves order. */
  lemma DivMonotone(x: real, y: real, z: real)
    requires x <= y && z > 0.0
    ensures x / z <= y / z
  {
    var a, b := x / z, y / z;
    assert a * z == x && b * z == y;
    assert (b - a) * z == y - x;
  }

  /** Going forward never makes the bar go back. */
  lemma ProgressMonotone(step1: nat, step2: nat, total: nat)
    requires total > 0 && step1 <= step2
    ensures Progress(step1, total) <= Progress(step2, total)
  {
    if 0 < step1 {
      DivMonotone(step1 as real, step2 as real, total as real);
      RoundMonotone(step1 as real / total as real * 100.0, step2 as real / total as real * 100.0);
    }
  }

  // ---------------------------------------------------------------- detailed mode

  /** Where the optional detailed screens land. The first five steps (welcome,
      province, about you, dependants, newcomer) and the income-source screen
      at step 5 are fixed; T4 entry, when selected, is step 6. */
  datatype Offsets = Offsets(t5Step: nat, selfStep: nat, deductionsStep: nat, lifeStep: nat, detailsStep: nat)

  function DetailedOffsets(sources: seq<string>): (o: Offsets)
    ensures o.t5Step == 6 + Indicator("t4" in sources)
    ensures o.t5Step <= o.selfStep <= o.deductionsStep < o.lifeStep < o.detailsStep
    ensures o.detailsStep + 2 == TotalSteps(Some(Detailed), sources)
  {
    var t5Step := if "t4" in sources then 7 else 6;
    var selfStep := t5Step + (if HasInvestments(sources) then 1 else 0);
    var deductionsStep := selfStep + (if "self" in sources then 1 else 0);
    var lifeStep := deductionsStep + 1;
    var detailsStep := lifeStep + 1;
    Offsets(t5Step, selfStep, deductionsStep, lifeStep, detailsStep)
  }

  datatype Screen =
    | IncomeSources
    | T4Entry
    | InvestmentEntry
    | SelfEmploymentEntry
    | Deductions
    | LifeSituations
    | LifeDetails
    | ResultsScreen

  /** The screen a detailed-mode step from 5 on shows: the first test that
      matches wins, and a step no test matches shows the results. */
  function DetailedScreen(step: nat, sources: seq<string>, lifeChecks: seq<string>): (r: Screen)
    requires step >= 5
    ensures r == IncomeSources <==> step == 5
    ensures r == T4Entry ==> step == 6 && "t4" in sources
    ensures r == InvestmentEntry ==> step == DetailedOffsets(sources).t5Step && HasInvestments(sources)
    ensures r == SelfEmploymentEntry ==> step == DetailedOffsets(sources).selfStep && "self" in sources
    ensures r == LifeDetails ==> step == DetailedOffsets(sources).detailsStep && |lifeChecks| > 0
  {
    var o := DetailedOffsets(sources);
    if step == 5 then IncomeSources
    else if step == 6 && "t4" in sources then T4Entry
    else if step == o.t5Step && HasInvestments(sources) then InvestmentEntry
    else if step == o.selfStep && "self" in sources then SelfEmploymentEntry
    else if step == o.deductionsStep then Deductions
    else if step == o.lifeStep then LifeSituations
    else if step == o.detailsStep && |lifeChecks| > 0 then LifeDetails
    else ResultsScreen
  }

  /** Stepping forward from the income-source screen shows each selected income
      screen exactly at its offset, then deductions, life situations and the
      details screen in turn, and only then the results: no step before
      `detailsStep` shows the results, every step after it does. */
  lemma {:induction false} DetailedScreensInOrder(sources: seq<string>, lifeChecks: seq<string>, step: nat)
    requires step >= 5
    ensures var o := DetailedOffsets(sources);
      && (DetailedScreen(6, sources, lifeChecks) == T4Entry <==> "t4" in sources)
      && (DetailedScreen(o.t5Step, sources, lifeChecks) == InvestmentEntry <==> HasInvestments(sources))
      && (DetailedScreen(o.selfStep, sources, lifeChecks) == SelfEmploymentEntry <==> "self" in sources)
      && DetailedScreen(o.deductionsStep, sources, lifeChecks) == Deductions
      && DetailedScreen(o.lifeStep, sources, lifeChecks) == LifeSituations
      && (DetailedScreen(o.detailsStep, sources, lifeChecks) == LifeDetails <==> |lifeChecks| > 0)
      && (step < o.detailsStep ==> DetailedScreen(step, sources, lifeChecks) != ResultsScreen)
      && (step > o.detailsStep ==> DetailedScreen(step, sources, lifeChecks) == ResultsScreen)
  {
    var o := DetailedOffsets(sources);
    if step < o.detailsStep {
      assert step <= o.lifeStep;
      if step > 5 && step != o.deductionsStep && step != o.lifeStep {
        assert step < o.deductionsStep;
        if step == 6 && "t4" !in sources {
          assert step == o.t5Step;
        }
      }
    }
  }

  /** The results screen is step `totalSteps - 1` in detailed mode when some
      life situation was ticked, but step `totalSteps` in quick mode, where
      the progress bar therefore reaches 100. */
  lemma ResultsStepAgainstTotal(sources: seq<string>, lifeChecks: seq<string>)
    requires |lifeChecks| > 0
    ensures var total := TotalSteps(Some(Detailed), sources);
      && DetailedScreen(total - 1, sources, lifeChecks) == ResultsScreen
      && DetailedScreen(total - 2, sources, lifeChecks) == LifeDetails
      && Progress(total - 2, total) < 100
    ensures Progress(TotalSteps(Some(Quick), sources), TotalSteps(Some(Quick), sources)) == 100
  {
    var total := TotalSteps(Some(Detailed), sources);
    DetailedScreensInOrder(sources, lifeChecks, total - 1);
    var x := (total - 2) as real * 100.0 / total as real;
    assert x <= 100.0 - 200.0 / total as real;
    assert 200.0 / total as real >= 200.0 / 13.0;
  }
}
