/** The results screen's two lists: the credits the answers qualify for and the
    credits the user might be missing, each built by pushing in a fixed order. */
module Results {
  import opened Common
  import opened ClaimItData
  import opened Answers
  import opened Income
  import opened Estimate

  /** A line of "Credits You Qualify For". The climate line shows the province's
      single amount per year and the work-from-home line the capped amount;
      the other lines show fixed text. */
  datatype FoundCredit =
    | BasicPersonalAmount
    | CanadaEmploymentAmount
    | SpousalAmount
    | AgeAmount
    | ClimateActionIncentive(perYear: int)
    | FirstTimeHomeBuyer
    | WorkFromHome(amount: int)

  /** A line of "Credits You Might Be Missing". */
  datatype MissingCredit = WorkFromHomeExpenses | RrspContribution | DigitalNewsSubscription

  /** The position of each kind of line in the list. */
  function FoundRank(c: FoundCredit): nat {
    match c
    case BasicPersonalAmount => 0
    case CanadaEmploymentAmount => 1
    case SpousalAmount => 2
    case AgeAmount => 3
    case ClimateActionIncentive(_) => 4
    case FirstTimeHomeBuyer => 5
    case WorkFromHome(_) => 6
  }

  function MissingRank(c: MissingCredit): nat {
    match c
    case WorkFromHomeExpenses => 0
    case RrspContribution => 1
    case DigitalNewsSubscription => 2
  }

  function When<T>(b: bool, x: T): seq<T> {
    if b then [x] else []
  }

  /** The displayed work-from-home amount: two dollars a day, at most 500. */
  function WfhShown(days: int): (r: int)
    ensures days * 2 <= 500 ==> r == days * 2
    ensures days * 2 > 500 ==> r == 500
  {
    if days * 2 < 500 then days * 2 else 500
  }

  // ---------------------------------------------------------------- specification

  /** The line rule `k` contributes (none or one), rules numbered in the order
      they are written: basic personal, employment, spousal, age, climate,
      first home, work from home. */
  function Line(a: AnswerSet, income: real, k: nat): (r: seq<FoundCredit>)
    ensures |r| <= 1 && forall i :: 0 <= i < |r| ==> FoundRank(r[i]) == k
  {
    if k == 0 then When(income > 0.0, BasicPersonalAmount)
    else if k == 1 then When("t4" in a.incomeSources || a.mode == Some(Quick), CanadaEmploymentAmount)
    else if k == 2 then When(HasSpouse(a) && a.spouseIncomeBracket != Some(SpouseHigh), SpousalAmount)
    else if k == 3 then When(IsSenior(a), AgeAmount)
    else if k == 4 then
      (if a.province.Some? && a.province.value in ClimateAction
       then [ClimateActionIncentive(ClimateAction[a.province.value].single)] else [])
    else if k == 5 then When("firstHome" in a.lifeChecks, FirstTimeHomeBuyer)
    else if k == 6 then When("wfh" in a.lifeChecks && Entered(a.wfhDays), WorkFromHome(WfhShown(a.wfhDays.value)))
    else []
  }

  /** The lines of the first `n` rules, in order. */
  function LinesUpTo(a: AnswerSet, income: real, n: nat): seq<FoundCredit> {
    if n == 0 then [] else LinesUpTo(a, income, n - 1) + Line(a, income, n - 1)
  }

  /** The qualifying lines: one per rule that holds, in the order the rules
      are written. */
  function FoundCredits(a: AnswerSet, income: real): seq<FoundCredit> {
    LinesUpTo(a, income, RuleCount)
  }

  /** The number of rules. */
  const RuleCount: nat := 7

  /** The possibly-missed lines. */
  function MissingCredits(a: AnswerSet): seq<MissingCredit> {
    When("wfh" !in a.lifeChecks, WorkFromHomeExpenses)
    + When(!Entered(a.rrspContribution), RrspContribution)
    + When("digitalNews" !in a.lifeChecks, DigitalNewsSubscription)
  }

  // ---------------------------------------------------------------- the pushes

  /** `creditsFound`, pushed rule by rule after computing total income. */
  method CreditsFound(a: AnswerSet) returns (found: seq<FoundCredit>)
    ensures found == FoundCredits(a, TotalIncome(a))
  {
    var income := GetTotalIncome(a);
    found := PushCredits(a, income);
  }

  /** The pushes themselves, for a given total income. */
  method PushCredits(a: AnswerSet, income: real) returns (found: seq<FoundCredit>)
    ensures found == FoundCredits(a, income)
  {
    found := [];
    ghost var k: nat := 0;  // rules applied so far
    if income > 0.0 {
      found := found + [BasicPersonalAmount];
    }
    assert found == LinesUpTo(a, income, k + 1);
    k := k + 1;
    if "t4" in a.incomeSources || a.mode == Some(Quick) {
      found := found + [CanadaEmploymentAmount];
    }
    assert found == LinesUpTo(a, income, k + 1);
    k := k + 1;
    if HasSpouse(a) && a.spouseIncomeBracket != Some(SpouseHigh) {
      found := found + [SpousalAmount];
    }
    assert found == LinesUpTo(a, income, k + 1);
    k := k + 1;
    if IsSenior(a) {
      found := found + [AgeAmount];
    }
    assert found == LinesUpTo(a, income, k + 1);
    k := k + 1;
    if a.province.Some? && a.province.value in ClimateAction {
      found := found + [ClimateActionIncentive(ClimateAction[a.province.value].single)];
    }
    assert found == LinesUpTo(a, income, k + 1);
    k := k + 1;
    if "firstHome" in a.lifeChecks {
      found := found + [FirstTimeHomeBuyer];
    }
    assert found == LinesUpTo(a, income, k + 1);
    k := k + 1;
    if "wfh" in a.lifeChecks && a.wfhDays.text != "" {
      var days := a.wfhDays.value;
      found := found + [WorkFromHome(if days * 2 < 500 then days * 2 else 500)];
    }
    assert found == LinesUpTo(a, income, k + 1);
    k := k + 1;
  }

  /** `missingCredits`, pushed rule by rule. */
  method CreditsMissing(a: AnswerSet) returns (missing: seq<MissingCredit>)
    ensures missing == MissingCredits(a)
  {
    missing := [];
    if "wfh" !in a.lifeChecks {
      missing := missing + [WorkFromHomeExpenses];
    }
    if a.rrspContribution.text == "" {
      missing := missing + [RrspContribution];
    }
    if "digitalNews" !in a.lifeChecks {
      missing := missing + [DigitalNewsSubscription];
    }
  }

  // ---------------------------------------------------------------- properties

  /** A line is among the first `n` rules' lines exactly when its own rule,
      the one of its rank, is among them and produced it. */
  lemma {:induction false} InLinesUpTo(a: AnswerSet, income: real, n: nat, x: FoundCredit)
    ensures x in LinesUpTo(a, income, n) <==> FoundRank(x) < n && x in Line(a, income, FoundRank(x))
  {
    if n > 0 {
      InLinesUpTo(a, income, n - 1, x);
      var last := Line(a, income, n - 1);
      if x in last {
        var i :| 0 <= i < |last| && last[i] == x;
      }
    }
  }

  /** Each fixed-text qualifying line appears exactly when its rule holds. */
  lemma FoundExactly(a: AnswerSet, income: real)
    ensures BasicPersonalAmount in FoundCredits(a, income) <==> income > 0.0
    ensures CanadaEmploymentAmount in FoundCredits(a, income) <==> "t4" in a.incomeSources || a.mode == Some(Quick)
    ensures SpousalAmount in FoundCredits(a, income) <==> HasSpouse(a) && a.spouseIncomeBracket != Some(SpouseHigh)
    ensures AgeAmount in FoundCredits(a, income) <==> IsSenior(a)
    ensures FirstTimeHomeBuyer in FoundCredits(a, income) <==> "firstHome" in a.lifeChecks
  {
    InLinesUpTo(a, income, RuleCount, BasicPersonalAmount);
    InLinesUpTo(a, income, RuleCount, CanadaEmploymentAmount);
    InLinesUpTo(a, income, RuleCount, SpousalAmount);
    InLinesUpTo(a, income, RuleCount, AgeAmount);
    InLinesUpTo(a, income, RuleCount, FirstTimeHomeBuyer);
  }

  /** The climate line appears exactly for a province in the table, showing
      its single amount; the work-from-home line exactly when that situation is
      ticked and a day count entered, showing the capped amount. */
  lemma FoundValues(a: AnswerSet, income: real)
    ensures forall v :: ClimateActionIncentive(v) in FoundCredits(a, income) <==>
      a.province.Some? && a.province.value in ClimateAction && v == ClimateAction[a.province.value].single
    ensures forall n :: WorkFromHome(n) in FoundCredits(a, income) <==>
      "wfh" in a.lifeChecks && Entered(a.wfhDays) && n == WfhShown(a.wfhDays.value)
  {
    forall v: int ensures ClimateActionIncentive(v) in FoundCredits(a, income) <==>
      a.province.Some? && a.province.value in ClimateAction && v == ClimateAction[a.province.value].single
    {
      InLinesUpTo(a, income, RuleCount, ClimateActionIncentive(v));
    }
    forall n: int ensures WorkFromHome(n) in FoundCredits(a, income) <==>
      "wfh" in a.lifeChecks && Entered(a.wfhDays) && n == WfhShown(a.wfhDays.value)
    {
      InLinesUpTo(a, income, RuleCount, WorkFromHome(n));
    }
  }

  /** Ranks strictly increase along the list. */
  predicate Ascending(s: seq<FoundCredit>) {
    forall i, j :: 0 <= i < j < |s| ==> FoundRank(s[i]) < FoundRank(s[j])
  }

  predicate RanksBelow(s: seq<FoundCredit>, k: nat) {
    forall i :: 0 <= i < |s| ==> FoundRank(s[i]) < k
  }

  /** Appending at most one line of rank `k` to an ascending list whose ranks are
      below `k` keeps it ascending, with ranks below `k + 1`. */
  lemma Extend(s: seq<FoundCredit>, piece: seq<FoundCredit>, k: nat)
    requires Ascending(s) && RanksBelow(s, k)
    requires |piece| <= 1 && forall i :: 0 <= i < |piece| ==> FoundRank(piece[i]) == k
    ensures Ascending(s + piece) && RanksBelow(s + piece, k + 1)
  {
    var t := s + piece;
    forall i, j | 0 <= i < j < |t| ensures FoundRank(t[i]) < FoundRank(t[j]) {
      if j >= |s| {
        assert t[j] == piece[j - |s|];
      }
    }
    forall i | 0 <= i < |t| ensures FoundRank(t[i]) < k + 1 {
      if i >= |s| {
        assert t[i] == piece[i - |s|];
      }
    }
  }

  /** The first `n` rules' lines are in rank order, every rank below `n`, and
      there are at most `n` of them. */
  lemma {:induction false} LinesAscending(a: AnswerSet, income: real, n: nat)
    ensures Ascending(LinesUpTo(a, income, n)) && RanksBelow(LinesUpTo(a, income, n), n)
    ensures |LinesUpTo(a, income, n)| <= n
  {
    if n > 0 {
      LinesAscending(a, income, n - 1);
      Extend(LinesUpTo(a, income, n - 1), Line(a, income, n - 1), n - 1);
    }
  }

  /** The lines come out in the order the rules are written, each kind at most once. */
  lemma FoundOrdered(a: AnswerSet, income: real)
    ensures Ascending(FoundCredits(a, income))
    ensures |FoundCredits(a, income)| <= 7
  {
    LinesAscending(a, income, RuleCount);
  }

  /** The missing-credit lines come out in rule order too. */
  lemma MissingExactly(a: AnswerSet)
    ensures WorkFromHomeExpenses in MissingCredits(a) <==> "wfh" !in a.lifeChecks
    ensures RrspContribution in MissingCredits(a) <==> !Entered(a.rrspContribution)
    ensures DigitalNewsSubscription in MissingCredits(a) <==> "digitalNews" !in a.lifeChecks
    ensures forall i, j :: 0 <= i < j < |MissingCredits(a)| ==>
      MissingRank(MissingCredits(a)[i]) < MissingRank(MissingCredits(a)[j])
  {
  }

  /** Work from home is on exactly one of the two lists unless it is ticked with
      the day count left blank, when it is on neither. */
  lemma WorkFromHomeOnOneList(a: AnswerSet, income: real)
    ensures WorkFromHomeExpenses in MissingCredits(a) ==> forall n :: WorkFromHome(n) !in FoundCredits(a, income)
    ensures WorkFromHomeExpenses !in MissingCredits(a) && Entered(a.wfhDays) ==>
      WorkFromHome(WfhShown(a.wfhDays.value)) in FoundCredits(a, income)
  {
    FoundValues(a, income);
  }

  // ---------------------------------------------------------------- against the estimate

  /** Every personal amount the estimate subtracts is listed, and the employment,
      climate and first-home lines appear exactly when the estimate uses them. */
  lemma ListedWhenCredited(a: AnswerSet, income: real)
    ensures EmploymentCredit(a) > 0.0 <==> CanadaEmploymentAmount in FoundCredits(a, income)
    ensures SpousalCredit(a) > 0.0 ==> SpousalAmount in FoundCredits(a, income)
    ensures AgeCredit(a, income) > 0.0 ==> AgeAmount in FoundCredits(a, income)
    ensures FirstHomeCredit(a.lifeChecks) > 0.0 <==> FirstTimeHomeBuyer in FoundCredits(a, income)
    ensures ClimateBenefit(a.province, HasSpouse(a), Kids(a)) > 0.0 <==>
      exists v :: ClimateActionIncentive(v) in FoundCredits(a, income)
  {
    FoundExactly(a, income);
    FoundValues(a, income);
    ClimateEntriesProportional();
    if a.province.Some? && a.province.value in ClimateAction {
      var v := ClimateAction[a.province.value].single;
      assert ClimateActionIncentive(v) in FoundCredits(a, income);
      assert v > 0;
    }
  }

  /** A senior whose income reaches the 98309 ceiling is still listed for the
      age amount, although the estimate credits nothing for it. */
  lemma SeniorListedAboveCeiling(a: AnswerSet, income: real)
    requires IsSenior(a) && income >= 98309.0
    ensures AgeAmount in FoundCredits(a, income)
    ensures AgeCredit(a, income) == 0.0
  {
    FoundExactly(a, income);
  }

  /** A partner with no income ('none') is listed for the spousal amount,
      although the estimate credits nothing for it. */
  lemma NoneBracketListedNotCredited(a: AnswerSet, income: real)
    requires HasSpouse(a) && a.spouseIncomeBracket == Some(SpouseNone)
    ensures SpousalAmount in FoundCredits(a, income)
    ensures SpousalCredit(a) == 0.0
  {
    FoundExactly(a, income);
  }
}
