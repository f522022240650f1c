/** Income aggregation and tax withheld (`getTotalIncome`, `getTaxPaid`). */
module Income {
  import opened Common
  import opened ClaimItData
  import opened Answers
  import opened Slips

  // ---------------------------------------------------------------- specification

  /** Sum of box 14 (gross employment income) over the T4 slips, in list order. */
  function T4IncomeSum(slips: seq<T4Slip>): real {
    if slips == [] then 0.0
    else T4IncomeSum(slips[..|slips| - 1]) + slips[|slips| - 1].boxes.box14Income.value
  }

  /** Sum of box 22 (income tax deducted) over the T4 slips. */
  function T4TaxSum(slips: seq<T4Slip>): real {
    if slips == [] then 0.0
    else T4TaxSum(slips[..|slips| - 1]) + slips[|slips| - 1].boxes.box22TaxDeducted.value
  }

  /** What one T5 contributes: interest, taxable dividends, half the capital gains. */
  function T5Amount(b: T5Boxes): real {
    b.box13Interest.value + b.box11DividendsTaxable.value + b.box18CapitalGains.value * 0.5
  }

  function T5IncomeSum(slips: seq<T5Slip>): real {
    if slips == [] then 0.0
    else T5IncomeSum(slips[..|slips| - 1]) + T5Amount(slips[|slips| - 1].boxes)
  }

  /** The net of a gross/expenses pair when positive; a loss counts as nothing. */
  function ProfitOnly(b: Business): (r: real)
    ensures r >= 0.0 && r >= b.gross.value - b.expenses.value
    ensures r == 0.0 || r == b.gross.value - b.expenses.value
  {
    var net := b.gross.value - b.expenses.value;
    if net > 0.0 then net else 0.0
  }

  /** Total income: the quick-mode figure, or (in any other mode) the slips and
      the positive business and rental nets. */
  function TotalIncome(a: AnswerSet): real {
    if a.mode == Some(Quick) then a.quickIncome.value
    else T4IncomeSum(a.t4Slips) + T5IncomeSum(a.t5Slips) + ProfitOnly(a.selfEmployment) + ProfitOnly(a.rentalIncome)
  }

  /** Tax withheld: the quick-mode figure, or box 22 summed over the T4 slips. */
  function TaxPaid(a: AnswerSet): real {
    if a.mode == Some(Quick) then a.quickTaxPaid.value else T4TaxSum(a.t4Slips)
  }

  // ---------------------------------------------------------------- the loops

  method GetTotalIncome(a: AnswerSet) returns (total: real)
    ensures total == TotalIncome(a)
  {
    if a.mode == Some(Quick) {
      return a.quickIncome.value;
    }
    total := 0.0;
    var t4 := a.t4Slips;
    for i := 0 to |t4|
      invariant total == T4IncomeSum(t4[..i])
    {
      assert t4[..i + 1][..i] == t4[..i];
      total := total + t4[i].boxes.box14Income.value;
    }
    assert t4[..|t4|] == t4;
    var t5 := a.t5Slips;
    for j := 0 to |t5|
      invariant total == T4IncomeSum(t4) + T5IncomeSum(t5[..j])
    {
      assert t5[..j + 1][..j] == t5[..j];
      total := total + t5[j].boxes.box13Interest.value;
      total := total + t5[j].boxes.box11DividendsTaxable.value;
      total := total + t5[j].boxes.box18CapitalGains.value * 0.5;
    }
    assert t5[..|t5|] == t5;
    var selfNet := a.selfEmployment.gross.value - a.selfEmployment.expenses.value;
    if selfNet > 0.0 {
      total := total + selfNet;
    }
    var rentalNet := a.rentalIncome.gross.value - a.rentalIncome.expenses.value;
    if rentalNet > 0.0 {
      total := total + rentalNet;
    }
  }

  method GetTaxPaid(a: AnswerSet) returns (total: real)
    ensures total == TaxPaid(a)
  {
    if a.mode == Some(Quick) {
      return a.quickTaxPaid.value;
    }
    total := 0.0;
    var t4 := a.t4Slips;
    for i := 0 to |t4|
      invariant total == T4TaxSum(t4[..i])
    {
      assert t4[..i + 1][..i] == t4[..i];
      total := total + t4[i].boxes.box22TaxDeducted.value;
    }
    assert t4[..|t4|] == t4;
  }

  // ---------------------------------------------------------------- properties

  /** Every amount that feeds total income or tax withheld is non-negative. */
  predicate AmountsNonNegative(a: AnswerSet) {
    && a.quickIncome.value >= 0.0
    && a.quickTaxPaid.value >= 0.0
    && (forall i :: 0 <= i < |a.t4Slips| ==>
          a.t4Slips[i].boxes.box14Income.value >= 0.0 && a.t4Slips[i].boxes.box22TaxDeducted.value >= 0.0)
    && (forall i :: 0 <= i < |a.t5Slips| ==>
          a.t5Slips[i].boxes.box13Interest.value >= 0.0 && a.t5Slips[i].boxes.box11DividendsTaxable.value >= 0.0 &&
          a.t5Slips[i].boxes.box18CapitalGains.value >= 0.0)
  }

  lemma {:induction false} T4SumsNonNegative(slips: seq<T4Slip>)
    requires forall i :: 0 <= i < |slips| ==>
      slips[i].boxes.box14Income.value >= 0.0 && slips[i].boxes.box22TaxDeducted.value >= 0.0
    ensures T4IncomeSum(slips) >= 0.0 && T4TaxSum(slips) >= 0.0
  {
    if slips != [] {
      T4SumsNonNegative(slips[..|slips| - 1]);
    }
  }

  lemma {:induction false} T5SumNonNegative(slips: seq<T5Slip>)
    requires forall i :: 0 <= i < |slips| ==>
      slips[i].boxes.box13Interest.value >= 0.0 && slips[i].boxes.box11DividendsTaxable.value >= 0.0 &&
      slips[i].boxes.box18CapitalGains.value >= 0.0
    ensures T5IncomeSum(slips) >= 0.0
  {
    if slips != [] {
      T5SumNonNegative(slips[..|slips| - 1]);
    }
  }

  /** With non-negative entries, total income and tax withheld are non-negative:
      the business and rental nets can only add. */
  lemma TotalsNonNegative(a: AnswerSet)
    requires AmountsNonNegative(a)
    ensures TotalIncome(a) >= 0.0 && TaxPaid(a) >= 0.0
  {
    T4SumsNonNegative(a.t4Slips);
    T5SumNonNegative(a.t5Slips);
  }

  /** A self-employment or rental loss is not subtracted: total income is what
      it would be with that pair left blank. */
  lemma LossAddsNothing(a: AnswerSet)
    ensures a.selfEmployment.gross.value <= a.selfEmployment.expenses.value ==>
      TotalIncome(a) == TotalIncome(a.(selfEmployment := Business(BlankAmount, BlankAmount)))
    ensures a.rentalIncome.gross.value <= a.rentalIncome.expenses.value ==>
      TotalIncome(a) == TotalIncome(a.(rentalIncome := Business(BlankAmount, BlankAmount)))
  {
  }

  /** Adding a T4 slip and typing an income into it raises total income by
      exactly that income (and leaves tax withheld alone until box 22 is typed). */
  lemma AddedT4IncomeCounts(a: AnswerSet, v: Input<real>)
    requires a.mode != Some(Quick)
    requires ValidSlips(a.t4Slips)
    ensures
      var added := AddT4(a.t4Slips);
      var typed := UpdateT4(added, added[|a.t4Slips|].id, Box14Income, v);
      && TotalIncome(a.(t4Slips := typed)) == TotalIncome(a) + v.value
      && TaxPaid(a.(t4Slips := typed)) == TaxPaid(a)
  {
    var old4 := a.t4Slips;
    var added := AddT4(old4);
    var id := added[|old4|].id;
    var typed := UpdateT4(added, id, Box14Income, v);
    assert typed[..|old4|] == old4 by {
      forall i | 0 <= i < |old4| ensures typed[i] == old4[i] {
        assert added[i] == old4[i];
      }
    }
    assert typed[|old4|].boxes.box14Income == v;
    assert typed[|old4|].boxes.box22TaxDeducted == BlankAmount by {
      assert T4Get(typed[|old4|].boxes, Box22TaxDeducted) == T4Get(added[|old4|].boxes, Box22TaxDeducted);
    }
  }
}
