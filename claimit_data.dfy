/** The static tables, slip constructors and the time-left classifier that the
    questionnaire and its estimate engine consult (lib/claimit-data.js). */
module ClaimItData {
  import opened Common

  // ---------------------------------------------------------------- tables

  /** The thirteen province and territory codes. */
  datatype Province = ON | BC | AB | SK | MB | QC | NB | NS | PE | NL | YT | NT | NU

  datatype ProvinceInfo = ProvinceInfo(name: string, hasRentCredit: bool, separateReturn: bool)

  /** Province and territory codes with their display name and flags. Only
      Quebec files a separate provincial return. */
  const Provinces: map<Province, ProvinceInfo> := map[
    ON := ProvinceInfo("Ontario", true, false),
    BC := ProvinceInfo("British Columbia", true, false),
    AB := ProvinceInfo("Alberta", false, false),
    SK := ProvinceInfo("Saskatchewan", false, false),
    MB := ProvinceInfo("Manitoba", true, false),
    QC := ProvinceInfo("Quebec", true, true),
    NB := ProvinceInfo("New Brunswick", false, false),
    NS := ProvinceInfo("Nova Scotia", false, false),
    PE := ProvinceInfo("P.E.I.", false, false),
    NL := ProvinceInfo("Newfoundland", false, false),
    YT := ProvinceInfo("Yukon", false, false),
    NT := ProvinceInfo("N.W.T.", false, false),
    NU := ProvinceInfo("Nunavut", false, false)
  ]

  /** Flat yearly climate-rebate amounts, per province that has one. */
  datatype ClimateAmounts = ClimateAmounts(single: int, spouse: int, child: int)

  const ClimateAction: map<Province, ClimateAmounts> := map[
    ON := ClimateAmounts(140, 140, 70),
    AB := ClimateAmounts(772, 772, 386),
    SK := ClimateAmounts(680, 680, 340),
    MB := ClimateAmounts(528, 528, 264),
    NB := ClimateAmounts(380, 380, 190),
    NS := ClimateAmounts(380, 380, 190),
    PE := ClimateAmounts(360, 360, 180),
    NL := ClimateAmounts(328, 328, 164)
  ]

  /** The tax years offered, most recent first. */
  const TaxYears: seq<int> := [2025, 2024, 2023, 2022]

  /** Every climate-table key is a known province code. */
  lemma ClimateKeysAreProvinces()
    ensures ClimateAction.Keys <= Provinces.Keys
  {
  }

  /** In every climate-table entry the spouse amount equals the single amount
      and a child gets half of it. */
  lemma ClimateEntriesProportional()
    ensures forall p :: p in ClimateAction ==>
      ClimateAction[p].spouse == ClimateAction[p].single &&
      2 * ClimateAction[p].child == ClimateAction[p].single
  {
  }

  /** The year list starts at 2025 and strictly descends. */
  lemma TaxYearsDescending()
    ensures |TaxYears| > 0 && TaxYears[0] == 2025
    ensures forall i, j :: 0 <= i < j < |TaxYears| ==> TaxYears[i] > TaxYears[j]
  {
  }

  // ---------------------------------------------------------------- slips

  /** An income slip: its id within its list and its form fields. */
  datatype Slip<F> = Slip(id: nat, boxes: F)

  /** The fields of an employment-income (T4) slip. */
  datatype T4Boxes = T4Boxes(
    employer: Input<real>,
    box14Income: Input<real>,
    box22TaxDeducted: Input<real>,
    box16Cpp: Input<real>,
    box18Ei: Input<real>,
    box20Rpp: Input<real>,
    box44UnionDues: Input<real>)

  /** The fields of an investment-income (T5/T3) slip. */
  datatype T5Boxes = T5Boxes(
    institution: Input<real>,
    box13Interest: Input<real>,
    box10DividendsActual: Input<real>,
    box11DividendsTaxable: Input<real>,
    box18CapitalGains: Input<real>)

  type T4Slip = Slip<T4Boxes>
  type T5Slip = Slip<T5Boxes>

  /** Field names of each kind of slip, as used to edit one field. */
  datatype T4Field = Employer | Box14Income | Box22TaxDeducted | Box16Cpp | Box18Ei | Box20Rpp | Box44UnionDues
  datatype T5Field = Institution | Box13Interest | Box10DividendsActual | Box11DividendsTaxable | Box18CapitalGains

  /** Reads one named field of a T4 slip. */
  function T4Get(b: T4Boxes, f: T4Field): Input<real> {
    match f
    case Employer => b.employer
    case Box14Income => b.box14Income
    case Box22TaxDeducted => b.box22TaxDeducted
    case Box16Cpp => b.box16Cpp
    case Box18Ei => b.box18Ei
    case Box20Rpp => b.box20Rpp
    case Box44UnionDues => b.box44UnionDues
  }

  /** Reads one named field of a T5 slip. */
  function T5Get(b: T5Boxes, f: T5Field): Input<real> {
    match f
    case Institution => b.institution
    case Box13Interest => b.box13Interest
    case Box10DividendsActual => b.box10DividendsActual
    case Box11DividendsTaxable => b.box11DividendsTaxable
    case Box18CapitalGains => b.box18CapitalGains
  }

  /** A fresh T4 slip: exactly the given id, every field empty. */
  function CreateEmptyT4(id: nat): (s: T4Slip)
    ensures s.id == id
    ensures forall f :: T4Get(s.boxes, f) == BlankAmount
  {
    Slip(id, T4Boxes(BlankAmount, BlankAmount, BlankAmount, BlankAmount, BlankAmount, BlankAmount, BlankAmount))
  }

  /** A fresh T5 slip: exactly the given id, every field empty. */
  function CreateEmptyT5(id: nat): (s: T5Slip)
    ensures s.id == id
    ensures forall f :: T5Get(s.boxes, f) == BlankAmount
  {
    Slip(id, T5Boxes(BlankAmount, BlankAmount, BlankAmount, BlankAmount, BlankAmount))
  }

  // ---------------------------------------------------------------- time left

  /** The two ways through the questionnaire. */
  datatype Mode = Quick | Detailed

  /** What the progress bar says is left: "Almost done!", "~N sec" or "~N min". */
  datatype TimeLeft = AlmostDone | Seconds(seconds: int) | Minutes(minutes: int)

  /** Seconds a remaining step is assumed to take: 15 in quick mode, 25 otherwise
      (also while no mode is chosen). */
  function SecondsPerStep(mode: Option<Mode>): int {
    if mode == Some(Quick) then 15 else 25
  }

  function GetTimeEstimate(mode: Option<Mode>, currentStep: int, totalSteps: int): (t: TimeLeft)
    ensures mode == Some(Quick) ==> (t == AlmostDone <==> totalSteps - currentStep <= 1)
    ensures mode != Some(Quick) ==> (t == AlmostDone <==> totalSteps - currentStep <= 0)
    ensures t.Seconds? ==> t.seconds == SecondsPerStep(mode) * (totalSteps - currentStep) < 60
    ensures t.Minutes? ==> SecondsPerStep(mode) * (totalSteps - currentStep) >= 60
    ensures t.Minutes? ==>
      t.minutes >= 1 && (t.minutes - 1) * 60 < SecondsPerStep(mode) * (totalSteps - currentStep) <= t.minutes * 60
  {
    var stepsRemaining := totalSteps - currentStep;
    if mode == Some(Quick) then
      var seconds := stepsRemaining * 15;
      if seconds <= 15 then AlmostDone
      else if seconds < 60 then Seconds(seconds)
      else Minutes(CeilDiv(seconds, 60))
    else
      var seconds := stepsRemaining * 25;
      if seconds <= 20 then AlmostDone
      else if seconds < 60 then Seconds(seconds)
      else Minutes(CeilDiv(seconds, 60))
  }

  /** Orders the three kinds of answer from shortest to longest. */
  predicate NoLonger(a: TimeLeft, b: TimeLeft) {
    match a
    case AlmostDone => true
    case Seconds(s) => (b.Seconds? && s <= b.seconds) || b.Minutes?
    case Minutes(m) => b.Minutes? && m <= b.minutes
  }

  /** More steps left never gives a shorter answer; in particular the minute
      count is non-decreasing in the number of steps left. */
  lemma TimeEstimateMonotone(mode: Option<Mode>, step1: int, step2: int, total: int)
    requires step2 <= step1
    ensures NoLonger(GetTimeEstimate(mode, step1, total), GetTimeEstimate(mode, step2, total))
  {
    var k := SecondsPerStep(mode);
    var s1, s2 := k * (total - step1), k * (total - step2);
    assert s1 <= s2 by {
      assert total - step1 <= total - step2;
    }
    var t1, t2 := GetTimeEstimate(mode, step1, total), GetTimeEstimate(mode, step2, total);
    if t1.Minutes? && t2.Minutes? {
      assert (t1.minutes - 1) * 60 < s1 <= s2 <= t2.minutes * 60;
    }
  }
}
