/** The annual dashboard: the year's income, expense and balance, and one chart row per month. */
module Dashboard {
  import opened Model
  import Seqs
  import InitialData
  import FinanceContext

  /** One bar of the monthly chart. */
  datatype ChartRow = ChartRow(name: string, fullMonth: string, income: Amount, expense: Amount)

  datatype DashboardSummary = DashboardSummary(
    totalIncome: Amount, totalExpense: Amount, balance: Amount, chartData: seq<ChartRow>)

  function RowIncome(r: ChartRow): Amount { r.income }
  function RowExpense(r: ChartRow): Amount { r.expense }

  /** `name.substring(0, 3)`: the first three characters, or the whole name when it is shorter. */
  function Abbrev(name: string): (r: string)
    ensures |r| <= 3 && |r| <= |name| && r == name[..|r|]
    ensures |name| >= 3 ==> |r| == 3
    ensures |name| < 3 ==> r == name
  {
    if |name| <= 3 then name else name[..3]
  }

  /** The `summary` memo: one pass over the months that sums each month and accumulates the year. */
  method ComputeSummary(months: seq<Month>) returns (d: DashboardSummary)
    ensures d.totalIncome == TotalIncome(months)
    ensures d.totalExpense == TotalExpense(months)
    ensures d.balance == d.totalIncome - d.totalExpense
    ensures |d.chartData| == |months|
    ensures forall i :: 0 <= i < |months| ==>
      d.chartData[i].name == Abbrev(months[i].name) && d.chartData[i].fullMonth == months[i].name
      && d.chartData[i].income == MonthIncome(months[i]) && d.chartData[i].expense == MonthExpense(months[i])
    ensures Seqs.SumBy(d.chartData, RowIncome) == d.totalIncome
    ensures Seqs.SumBy(d.chartData, RowExpense) == d.totalExpense
  {
    var income, expense := 0, 0;
    var monthlyData: seq<ChartRow> := [];
    for i := 0 to |months|
      invariant income == TotalIncome(months[..i])
      invariant expense == TotalExpense(months[..i])
      invariant |monthlyData| == i
      invariant forall k :: 0 <= k < i ==>
        monthlyData[k] == ChartRow(Abbrev(months[k].name), months[k].name, MonthIncome(months[k]), MonthExpense(months[k]))
    {
      var m := months[i];
      var mIncome := Seqs.SumBy(m.incomes, TxAmount) + Seqs.SumBy(m.pianoClasses, ClassTotal);
      var mExpense := Seqs.SumBy(m.expenses, TxAmount);
      income := income + mIncome;
      expense := expense + mExpense;
      monthlyData := monthlyData + [ChartRow(Abbrev(m.name), m.name, mIncome, mExpense)];
      assert months[..i + 1][..i] == months[..i];
    }
    assert months[..|months|] == months;
    Seqs.SumByPointwise(monthlyData, RowIncome, months, MonthIncome);
    Seqs.SumByPointwise(monthlyData, RowExpense, months, MonthExpense);
    d := DashboardSummary(income, expense, income - expense, monthlyData);
  }

  /** The dashboard and the store's `getAnnualSummary` report the same year. */
  method MatchesAnnualSummary(store: FinanceContext.FinanceStore) returns (same: bool)
    ensures same
  {
    var annual := store.GetAnnualSummary();
    var d := ComputeSummary(store.data.months);
    same := annual.totalIncome == d.totalIncome && annual.totalExpense == d.totalExpense
      && annual.balance == d.balance;
  }

  /** The seeded year's twelve chart labels are all different (Ene, Feb, ..., Dic). */
  lemma SeedLabelsDistinct()
    ensures forall i, j :: 0 <= i < j < |InitialData.MonthNames| ==>
      Abbrev(InitialData.MonthNames[i]) != Abbrev(InitialData.MonthNames[j])
  {
    var labels := ["Ene", "Feb", "Mar", "Abr", "May", "Jun", "Jul", "Ago", "Sep", "Oct", "Nov", "Dic"];
    forall i | 0 <= i < 12 ensures Abbrev(InitialData.MonthNames[i]) == labels[i] {
      var n := InitialData.MonthNames[i];
      assert Abbrev(n) == [n[0], n[1], n[2]];
    }
  }
}
