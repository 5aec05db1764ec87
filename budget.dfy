/**
 * The Financial Monitoring page (pages/Budget.tsx): budget totals in CAD,
 * utilisation, the remaining amount, per-line variance and its alert, the
 * chart rows, and the add-line form's guard and defaults.
 */
module Budget {
  import opened Wrappers
  import opened Types
  import opened Numbers
  import opened Seqs
  import opened DataContext

  /** A line's planned amount converted to CAD at its own rate (not rounded). */
  function PlannedCad(b: BudgetLine): real { b.plannedAmount * b.currencyRate }

  function Spent(b: BudgetLine): real { b.cadEquivalent }

  /** What is left of one line in CAD. */
  function Balance(b: BudgetLine): real { PlannedCad(b) - b.cadEquivalent }

  /** Σ plannedAmount × currencyRate. */
  function TotalPlannedCad(s: seq<BudgetLine>): (r: real)
    ensures s == [] ==> r == 0.0
    ensures s != [] ==> r == SumReal(s[..|s| - 1], PlannedCad) + PlannedCad(s[|s| - 1])
  {
    LastOfSumReal(s, PlannedCad);
    SumReal(s, PlannedCad)
  }

  /** Σ cadEquivalent. */
  function TotalSpent(s: seq<BudgetLine>): (r: real)
    ensures s == [] ==> r == 0.0
    ensures s != [] ==> r == SumReal(s[..|s| - 1], Spent) + Spent(s[|s| - 1])
  {
    LastOfSumReal(s, Spent);
    SumReal(s, Spent)
  }

  /** Both totals of a budget split in two are the sums of the parts' totals. */
  lemma TotalsAdditive(a: seq<BudgetLine>, b: seq<BudgetLine>)
    ensures TotalPlannedCad(a + b) == TotalPlannedCad(a) + TotalPlannedCad(b)
    ensures TotalSpent(a + b) == TotalSpent(a) + TotalSpent(b)
  {
    SumRealConcat(a, b, PlannedCad);
    SumRealConcat(a, b, Spent);
  }

  /** The share of the planned CAD total that is spent, in whole percent; 0 with nothing planned. */
  function Utilization(s: seq<BudgetLine>): (r: int)
    ensures TotalPlannedCad(s) <= 0.0 ==> r == 0
    ensures TotalPlannedCad(s) > 0.0 ==>
      (r as real - 0.5) * TotalPlannedCad(s) <= TotalSpent(s) * 100.0 < (r as real + 0.5) * TotalPlannedCad(s)
  {
    Percent(TotalSpent(s), TotalPlannedCad(s))
  }

  /** Spending within a positive plan keeps utilisation within 0..100 percent. */
  lemma UtilizationBounded(s: seq<BudgetLine>)
    requires 0.0 <= TotalSpent(s) <= TotalPlannedCad(s)
    ensures 0 <= Utilization(s) <= 100
  {
    PercentBounds(TotalSpent(s), TotalPlannedCad(s));
  }

  /** A budget where nothing has been spent yet is 0 percent utilised. */
  lemma {:induction false} NothingSpentNothingUtilized(s: seq<BudgetLine>)
    requires forall i :: 0 <= i < |s| ==> s[i].cadEquivalent == 0.0
    ensures TotalSpent(s) == 0.0
    ensures Utilization(s) == 0
  {
    if s != [] {
      NothingSpentNothingUtilized(s[1..]);
    }
    if TotalPlannedCad(s) > 0.0 {
      PercentOfAllAndNone(TotalPlannedCad(s));
    }
  }

  /** The "Remaining" card: planned minus spent, which is what remains of each line, added up. */
  function Remaining(s: seq<BudgetLine>): (r: real)
    ensures r == SumReal(s, Balance)
  {
    RemainingIsSumOfBalances(s);
    TotalPlannedCad(s) - TotalSpent(s)
  }

  /** The planned total less the spent total is the sum of the lines' balances. */
  lemma {:induction false} RemainingIsSumOfBalances(s: seq<BudgetLine>)
    ensures TotalPlannedCad(s) - TotalSpent(s) == SumReal(s, Balance)
  {
    if s != [] {
      RemainingIsSumOfBalances(s[1..]);
    }
  }

  /** Recording an actual amount never changes the planned total. */
  lemma UpdateActualKeepsPlannedTotal(s: seq<BudgetLine>, id: string, actualAmount: real)
    ensures TotalPlannedCad(UpdateBudgetActual(s, id, actualAmount)) == TotalPlannedCad(s)
  {
    assert forall b :: PlannedCad(WithActual(actualAmount)(b)) == PlannedCad(b);
    SumRealUpdateWhere(s, HasId(BudgetLineId, id), WithActual(actualAmount), PlannedCad);
  }

  /**
   * Per-line variance in percent of the planned amount: the overspend
   * relative to plan, 0 for a line with nothing planned.
   */
  function Variance(line: BudgetLine): (r: real)
    ensures line.plannedAmount <= 0.0 ==> r == 0.0
    ensures line.plannedAmount > 0.0 ==> r * line.plannedAmount == (line.actualAmount - line.plannedAmount) * 100.0
  {
    if line.plannedAmount > 0.0 then (line.actualAmount - line.plannedAmount) / line.plannedAmount * 100.0 else 0.0
  }

  /**
   * The high-variance alert, raised above 20%: exactly when something is
   * planned and the line is overspent by more than a fifth.
   */
  function IsHighVariance(line: BudgetLine): (r: bool)
    ensures r <==> line.plannedAmount > 0.0 && line.actualAmount * 5.0 > line.plannedAmount * 6.0
  {
    HighVarianceMeansOverspent(line);
    Variance(line) > 20.0
  }

  /** A variance above 20% means something is planned and actual exceeds planned by more than a fifth. */
  lemma HighVarianceMeansOverspent(line: BudgetLine)
    ensures Variance(line) > 20.0 <==> line.plannedAmount > 0.0 && line.actualAmount * 5.0 > line.plannedAmount * 6.0
  {
    var p, a := line.plannedAmount, line.actualAmount;
    if p > 0.0 {
      var v := Variance(line);
      if v > 20.0 {
        ScaleKeepsOrder(20.0, v, p);
      } else {
        ScaleKeepsOrder(v, 20.0, p);
      }
    }
  }

  /** The generic conversion rate a new line is given. */
  const NewLineRate: real := 0.022

  /**
   * The add-line form: refused with an empty category or a plan that is
   * not positive; otherwise a line with nothing spent yet at the generic rate.
   */
  function NewBudgetLine(id: string, category: string, plannedAmount: real): (r: Option<BudgetLine>)
    ensures r.Some? <==> category != "" && plannedAmount > 0.0
    ensures r.Some? ==>
      && r.value.id == id && r.value.category == category && r.value.plannedAmount == plannedAmount
      && r.value.actualAmount == 0.0 && r.value.currencyRate == NewLineRate
      && CadConsistent(r.value)
  {
    if category == "" || plannedAmount <= 0.0 then None
    else
      RoundOfInteger(0);
      Some(BudgetLine(id, category, plannedAmount, 0.0, 0.0, NewLineRate))
  }

  /** Adding a new line keeps every CAD equivalent consistent, adds nothing spent and adds its plan. */
  lemma NewLineJoinsBudget(s: seq<BudgetLine>, id: string, category: string, plannedAmount: real)
    requires AllCadConsistent(s)
    requires NewBudgetLine(id, category, plannedAmount).Some?
    ensures var line := NewBudgetLine(id, category, plannedAmount).value;
      && AllCadConsistent(s + [line])
      && TotalSpent(s + [line]) == TotalSpent(s)
      && TotalPlannedCad(s + [line]) == TotalPlannedCad(s) + plannedAmount * NewLineRate
  {
    var line := NewBudgetLine(id, category, plannedAmount).value;
    assert line == BudgetLine(id, category, plannedAmount, 0.0, 0.0, NewLineRate);
    TotalsAdditive(s, [line]);
    assert [line][1..] == [];
    assert SumReal([line], Spent) == Spent(line) + SumReal([], Spent);
    assert TotalSpent([line]) == 0.0;
    assert SumReal([line], PlannedCad) == PlannedCad(line) + SumReal([], PlannedCad);
    assert TotalPlannedCad([line]) == plannedAmount * NewLineRate;
    var t := s + [line];
    forall i | 0 <= i < |t| ensures CadConsistent(t[i]) {
      if i < |s| {
        assert t[i] == s[i];
      }
    }
  }

  /** `category.split(' ')[0]`: the text before the first space, or all of it. */
  function FirstWord(s: string): (r: string)
    ensures r <= s
    ensures ' ' !in r
    ensures |r| < |s| ==> s[|r|] == ' '
  {
    if s == [] || s[0] == ' ' then [] else [s[0]] + FirstWord(s[1..])
  }

  datatype BudgetBar = BudgetBar(name: string, planned: int, actual: real)

  /** One bar pair per line, in budget order: short name, planned CAD rounded, CAD equivalent. */
  function ChartData(s: seq<BudgetLine>): (r: seq<BudgetBar>)
    ensures |r| == |s|
    ensures forall i :: 0 <= i < |s| ==>
      && r[i].name == FirstWord(s[i].category)
      && r[i].planned as real - 0.5 <= PlannedCad(s[i]) < r[i].planned as real + 0.5
      && r[i].actual == s[i].cadEquivalent
  {
    seq(|s|, i requires 0 <= i < |s| => BudgetBar(FirstWord(s[i].category), Round(PlannedCad(s[i])), s[i].cadEquivalent))
  }
}
