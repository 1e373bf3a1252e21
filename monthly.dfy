/** The chart-side analytics of the dashboard: the source/category filter,
    the per-month summary of the income and expenses tables, the cumulative
    cash flow and the financial metrics. */
module Monthly {
  import opened Common
  import opened Keys
  import opened Tables

  // ---------------------------------------------------------------------------
  // Filter

  /** `df[df[col].isin(selection)]`: the rows whose name is selected, in order. */
  function Keep(rows: seq<Row>, selection: seq<string>): (r: seq<Row>)
    ensures forall row :: multiset(r)[row] == if row.name in selection then multiset(rows)[row] else 0
  {
    if rows == [] then []
    else
      var rest := Keep(rows[1..], selection);
      assert rows == [rows[0]] + rows[1..];
      (if rows[0].name in selection then [rows[0]] else []) + rest
  }

  /** `if selected: df = df[df[col].isin(selected)]`: a `None` or empty
      selection leaves the table as it is. */
  function Filter(rows: seq<Row>, selection: Option<seq<string>>): (r: seq<Row>)
    ensures selection.None? || selection == Some([]) ==> r == rows
    ensures selection.Some? && selection.value != [] ==>
              forall row :: row in r <==> row in rows && row.name in selection.value
  {
    if selection.None? || selection.value == [] then rows
    else Keep(rows, selection.value)
  }

  /** A non-empty selection that no row matches filters to nothing: "no
      filter" and "filter to nothing" are different. */
  lemma FilterToNothing(rows: seq<Row>, selection: seq<string>)
    requires selection != []
    requires forall row :: row in rows ==> row.name !in selection
    ensures Filter(rows, Some(selection)) == []
  {
  }

  // ---------------------------------------------------------------------------
  // Per-month sums

  datatype Field = Budgeted | Actual

  /** A row's amount in the chart path (non-numeric cells count as 0). */
  function Amount(row: Row, f: Field): real
  {
    match f
    case Budgeted => ChartAmount(row.budgeted)
    case Actual => ChartAmount(row.actual)
  }

  /** What a row adds to the sum of month `m`. */
  function Share(row: Row, m: string, f: Field): real
  {
    if row.month == m then Amount(row, f) else 0.0
  }

  /** `df.groupby('Month')[f].sum()` at month `m`. */
  function MonthTotal(rows: seq<Row>, m: string, f: Field): real
  {
    if rows == [] then 0.0 else Share(rows[0], m, f) + MonthTotal(rows[1..], m, f)
  }

  /** `df[f].sum()` */
  function Total(rows: seq<Row>, f: Field): real
  {
    if rows == [] then 0.0 else Amount(rows[0], f) + Total(rows[1..], f)
  }

  lemma {:induction false} MonthTotalAppend(a: seq<Row>, b: seq<Row>, m: string, f: Field)
    ensures MonthTotal(a + b, m, f) == MonthTotal(a, m, f) + MonthTotal(b, m, f)
  {
    if a == [] {
      assert a + b == b;
    } else {
      assert (a + b)[0] == a[0] && (a + b)[1..] == a[1..] + b;
      MonthTotalAppend(a[1..], b, m, f);
    }
  }

  /** A month no row mentions sums to 0 (the `fillna(0)` after the merge). */
  lemma {:induction false} MonthTotalAbsent(rows: seq<Row>, m: string, f: Field)
    requires forall row :: row in rows ==> row.month != m
    ensures MonthTotal(rows, m, f) == 0.0
  {
    if rows != [] {
      assert rows[0] in rows;
      MonthTotalAbsent(rows[1..], m, f);
    }
  }

  /** Taking row `i` out of a table takes its share out of every month sum. */
  lemma RemoveRow(b: seq<Row>, i: nat, m: string, f: Field)
    requires i < |b|
    ensures multiset(b[..i] + b[i + 1..]) == multiset(b) - multiset{b[i]}
    ensures MonthTotal(b, m, f) == Share(b[i], m, f) + MonthTotal(b[..i] + b[i + 1..], m, f)
  {
    assert b == b[..i] + [b[i]] + b[i + 1..];
    assert multiset(b) == multiset(b[..i]) + multiset{b[i]} + multiset(b[i + 1..]);
    MonthTotalAppend(b[..i] + [b[i]], b[i + 1..], m, f);
    MonthTotalAppend(b[..i], [b[i]], m, f);
    MonthTotalAppend(b[..i], b[i + 1..], m, f);
    assert MonthTotal([b[i]], m, f) == Share(b[i], m, f);
  }

  lemma DropHead(a: seq<Row>)
    requires a != []
    ensures multiset(a[1..]) == multiset(a) - multiset{a[0]}
  {
    assert a == [a[0]] + a[1..];
  }

  /** A position of `x` in `b`, when `b` holds it. */
  function FindRow(b: seq<Row>, x: Row): (i: nat)
    requires x in multiset(b)
    ensures i < |b| && b[i] == x
  {
    if b[0] == x then 0 else FindRow(b[1..], x) + 1
  }

  /** The sum of a month does not depend on the order of the rows. */
  lemma {:induction false} MonthTotalPermutation(a: seq<Row>, b: seq<Row>, m: string, f: Field)
    requires multiset(a) == multiset(b)
    ensures MonthTotal(a, m, f) == MonthTotal(b, m, f)
    decreases |a|
  {
    if a == [] {
      assert |b| == |multiset(b)| == 0;
    } else {
      var x := a[0];
      var i := FindRow(b, x);
      RemoveRow(b, i, m, f);
      DropHead(a);
      MonthTotalPermutation(a[1..], b[..i] + b[i + 1..], m, f);
    }
  }

  /** Sum of the month sums over a list of keys. */
  function KeySum(rows: seq<Row>, keys: seq<string>, f: Field): real
  {
    if keys == [] then 0.0 else MonthTotal(rows, keys[0], f) + KeySum(rows, keys[1..], f)
  }

  /** What one row adds over a list of keys. */
  function ShareOver(row: Row, keys: seq<string>, f: Field): real
  {
    if keys == [] then 0.0 else Share(row, keys[0], f) + ShareOver(row, keys[1..], f)
  }

  lemma {:induction false} ShareOverDistinct(row: Row, keys: seq<string>, f: Field)
    requires Distinct(keys)
    ensures ShareOver(row, keys, f) == if row.month in keys then Amount(row, f) else 0.0
  {
    if keys != [] {
      ShareOverDistinct(row, keys[1..], f);
      if keys[0] == row.month {
        assert row.month !in keys[1..] by {
          forall j | 1 <= j < |keys| ensures keys[j] != row.month { }
        }
      }
    }
  }

  lemma {:induction false} KeySumCons(row: Row, rows: seq<Row>, keys: seq<string>, f: Field)
    ensures KeySum([row] + rows, keys, f) == ShareOver(row, keys, f) + KeySum(rows, keys, f)
  {
    if keys != [] {
      assert ([row] + rows)[0] == row && ([row] + rows)[1..] == rows;
      KeySumCons(row, rows, keys[1..], f);
    }
  }

  /** Summing each month's total over a list of distinct keys that covers
      every row's month gives the grand total: grouping loses nothing. */
  lemma {:induction false} GroupedTotal(rows: seq<Row>, keys: seq<string>, f: Field)
    requires Distinct(keys)
    requires forall row :: row in rows ==> row.month in keys
    ensures KeySum(rows, keys, f) == Total(rows, f)
  {
    if rows == [] {
      KeySumEmpty(keys, f);
    } else {
      assert rows == [rows[0]] + rows[1..];
      KeySumCons(rows[0], rows[1..], keys, f);
      ShareOverDistinct(rows[0], keys, f);
      GroupedTotal(rows[1..], keys, f);
    }
  }

  lemma {:induction false} KeySumEmpty(keys: seq<string>, f: Field)
    ensures KeySum([], keys, f) == 0.0
  {
    if keys != [] {
      KeySumEmpty(keys[1..], f);
    }
  }

  // ---------------------------------------------------------------------------
  // Monthly summary

  /** The `Month` column of a table. */
  function Months(rows: seq<Row>): (r: seq<string>)
    ensures |r| == |rows| && forall i :: 0 <= i < |rows| ==> r[i] == rows[i].month
  {
    seq(|rows|, i requires 0 <= i < |rows| => rows[i].month)
  }

  lemma MonthsMembership(rows: seq<Row>, m: string)
    ensures m in Months(rows) <==> exists row :: row in rows && row.month == m
  {
    if exists row :: row in rows && row.month == m {
      var row :| row in rows && row.month == m;
      var i :| 0 <= i < |rows| && rows[i] == row;
      assert Months(rows)[i] == m;
    }
  }

  /** The months of the merged summary: every month of either table once,
      January to December first, then any other value in string order. */
  function MonthKeys(income: seq<Row>, expenses: seq<Row>): (r: seq<string>)
    ensures StrictlySorted(Calendar, r)
    ensures forall m :: m in r <==> m in Months(income) || m in Months(expenses)
  {
    SortedKeys(Calendar, Months(income) + Months(expenses))
  }

  /** One row of the merged summary (`..._Income`, `..._Expenses` columns). */
  datatype MonthSummary = MonthSummary(month: string,
                                       budgetedIncome: real, actualIncome: real,
                                       budgetedExpenses: real, actualExpenses: real)

  function SummaryFor(income: seq<Row>, expenses: seq<Row>, m: string): MonthSummary
  {
    MonthSummary(m, MonthTotal(income, m, Budgeted), MonthTotal(income, m, Actual),
                 MonthTotal(expenses, m, Budgeted), MonthTotal(expenses, m, Actual))
  }

  function SummarizeKeys(income: seq<Row>, expenses: seq<Row>, keys: seq<string>): (r: seq<MonthSummary>)
    ensures |r| == |keys| && forall i :: 0 <= i < |keys| ==> r[i] == SummaryFor(income, expenses, keys[i])
  {
    seq(|keys|, i requires 0 <= i < |keys| => SummaryFor(income, expenses, keys[i]))
  }

  /** `summary_df` of `update_chart`: group each table by month and sum,
      outer-merge the two on `Month`, fill 0, sort by calendar month. */
  function MonthlySummary(income: seq<Row>, expenses: seq<Row>): (r: seq<MonthSummary>)
    ensures |r| == |MonthKeys(income, expenses)|
    ensures forall i, j :: 0 <= i < j < |r| ==> Before(Calendar, r[i].month, r[j].month)
  {
    SummarizeKeys(income, expenses, MonthKeys(income, expenses))
  }

  /** The data behind the budget-versus-actual chart: the summary of the
      filtered tables. */
  function BudgetChart(income: seq<Row>, expenses: seq<Row>,
                       sources: Option<seq<string>>, categories: Option<seq<string>>): (r: seq<MonthSummary>)
    ensures (sources.None? || sources == Some([])) && (categories.None? || categories == Some([])) ==>
              r == MonthlySummary(income, expenses)
  {
    MonthlySummary(Filter(income, sources), Filter(expenses, categories))
  }

  /** January comes before April although "April" < "January" as strings. */
  lemma CalendarNotAlphabetical()
    ensures MonthKeys([Row("April", "Salary", Num(1.0), Num(1.0), Blank)],
                      [Row("January", "Rent", Num(1.0), Num(1.0), Blank)]) == ["January", "April"]
    ensures LexLess("April", "January")
  {
    var income := [Row("April", "Salary", Num(1.0), Num(1.0), Blank)];
    var expenses := [Row("January", "Rent", Num(1.0), Num(1.0), Blank)];
    assert MonthRank("January") == 0 && MonthRank("April") == 3;
    assert StrictlySorted(Calendar, ["January", "April"]);
    assert Months(income) == ["April"] && Months(expenses) == ["January"];
    SortedUnique(Calendar, MonthKeys(income, expenses), ["January", "April"]);
  }

  /** One summary row per month that appears in either table, and no month twice. */
  lemma SummaryMonths(income: seq<Row>, expenses: seq<Row>, m: string)
    ensures (exists i :: 0 <= i < |MonthlySummary(income, expenses)| && MonthlySummary(income, expenses)[i].month == m) <==>
            (exists row :: row in income && row.month == m) || (exists row :: row in expenses && row.month == m)
    ensures forall i, j :: 0 <= i < j < |MonthlySummary(income, expenses)| ==>
              MonthlySummary(income, expenses)[i].month != MonthlySummary(income, expenses)[j].month
  {
    var keys := MonthKeys(income, expenses);
    MonthsMembership(income, m);
    MonthsMembership(expenses, m);
    SortedIsDistinct(Calendar, keys);
    if m in keys {
      var i :| 0 <= i < |keys| && keys[i] == m;
      assert MonthlySummary(income, expenses)[i].month == m;
    }
  }

  /** Calendar months come January to December; every value that is not a
      calendar month (such as the blank '' of a new row) comes after all of them. */
  lemma SummaryOrder(income: seq<Row>, expenses: seq<Row>, i: nat, j: nat)
    requires i < j < |MonthlySummary(income, expenses)|
    ensures var s := MonthlySummary(income, expenses);
            MonthRank(s[i].month) < MonthRank(s[j].month) ||
            (MonthRank(s[i].month) == 12 && MonthRank(s[j].month) == 12)
  {
    var keys := MonthKeys(income, expenses);
    var a, b := keys[i], keys[j];
    assert Before(Calendar, a, b);
    if MonthRank(a) == MonthRank(b) && MonthRank(a) < 12 {
      assert a == MonthNames[MonthRank(a)] == b;
      LexIrreflexive(a);
    }
  }

  /** Each summary row holds the four per-month sums of its month; a month
      missing from one table gets 0 on that side. */
  lemma SummaryAmounts(income: seq<Row>, expenses: seq<Row>, i: nat)
    requires i < |MonthlySummary(income, expenses)|
    ensures var s := MonthlySummary(income, expenses)[i];
            s.budgetedIncome == MonthTotal(income, s.month, Budgeted) &&
            s.actualIncome == MonthTotal(income, s.month, Actual) &&
            s.budgetedExpenses == MonthTotal(expenses, s.month, Budgeted) &&
            s.actualExpenses == MonthTotal(expenses, s.month, Actual) &&
            ((forall row :: row in income ==> row.month != s.month) ==>
               s.budgetedIncome == 0.0 && s.actualIncome == 0.0) &&
            ((forall row :: row in expenses ==> row.month != s.month) ==>
               s.budgetedExpenses == 0.0 && s.actualExpenses == 0.0)
  {
    var m := MonthlySummary(income, expenses)[i].month;
    if forall row :: row in income ==> row.month != m {
      MonthTotalAbsent(income, m, Budgeted);
      MonthTotalAbsent(income, m, Actual);
    }
    if forall row :: row in expenses ==> row.month != m {
      MonthTotalAbsent(expenses, m, Budgeted);
      MonthTotalAbsent(expenses, m, Actual);
    }
  }

  /** The summary does not depend on the order of the rows in either table. */
  lemma SummaryPermutation(income: seq<Row>, expenses: seq<Row>, income': seq<Row>, expenses': seq<Row>)
    requires multiset(income) == multiset(income') && multiset(expenses) == multiset(expenses')
    ensures MonthlySummary(income, expenses) == MonthlySummary(income', expenses')
  {
    var keys := MonthKeys(income, expenses);
    var keys' := MonthKeys(income', expenses');
    forall m ensures m in keys <==> m in keys' {
      MonthsMembership(income, m);
      MonthsMembership(expenses, m);
      MonthsMembership(income', m);
      MonthsMembership(expenses', m);
      assert forall row :: row in income <==> row in income' by {
        forall row ensures row in income <==> row in income' {
          assert row in income <==> row in multiset(income);
          assert row in income' <==> row in multiset(income');
        }
      }
      assert forall row :: row in expenses <==> row in expenses' by {
        forall row ensures row in expenses <==> row in expenses' {
          assert row in expenses <==> row in multiset(expenses);
          assert row in expenses' <==> row in multiset(expenses');
        }
      }
    }
    SortedUnique(Calendar, keys, keys');
    forall i | 0 <= i < |keys|
      ensures SummaryFor(income, expenses, keys[i]) == SummaryFor(income', expenses', keys[i])
    {
      MonthTotalPermutation(income, income', keys[i], Budgeted);
      MonthTotalPermutation(income, income', keys[i], Actual);
      MonthTotalPermutation(expenses, expenses', keys[i], Budgeted);
      MonthTotalPermutation(expenses, expenses', keys[i], Actual);
    }
  }

  // ---------------------------------------------------------------------------
  // Cumulative cash flow

  /** One point of the cumulative cash-flow chart. */
  datatype CashFlowPoint = CashFlowPoint(month: string, net: real, cumulative: real)

  /** `Net Income` per row, then its `cumsum()` starting from `carried`. */
  function Accumulate(summaries: seq<MonthSummary>, carried: real): (r: seq<CashFlowPoint>)
    ensures |r| == |summaries|
  {
    if summaries == [] then []
    else
      var s := summaries[0];
      var net := s.actualIncome - s.actualExpenses;
      [CashFlowPoint(s.month, net, carried + net)] + Accumulate(summaries[1..], carried + net)
  }

  /** `update_cumulative_cash_flow_chart`: the monthly net income and its
      running total, in calendar order. */
  function CashFlow(income: seq<Row>, expenses: seq<Row>): (r: seq<CashFlowPoint>)
    ensures var s := MonthlySummary(income, expenses);
            |r| == |s| &&
            forall i :: 0 <= i < |r| ==>
              r[i].month == s[i].month && r[i].net == s[i].actualIncome - s[i].actualExpenses
  {
    AccumulatePoints(MonthlySummary(income, expenses), 0.0);
    Accumulate(MonthlySummary(income, expenses), 0.0)
  }

  lemma AccumulatePoints(summaries: seq<MonthSummary>, carried: real)
    ensures var r := Accumulate(summaries, carried);
            forall i :: 0 <= i < |summaries| ==>
              r[i].month == summaries[i].month && r[i].net == summaries[i].actualIncome - summaries[i].actualExpenses
  {
    forall i | 0 <= i < |summaries|
      ensures Accumulate(summaries, carried)[i].month == summaries[i].month
      ensures Accumulate(summaries, carried)[i].net == summaries[i].actualIncome - summaries[i].actualExpenses
    {
      AccumulateAt(summaries, carried, i);
    }
  }

  /** Sum of the net incomes of a run of summary rows. */
  function NetSum(summaries: seq<MonthSummary>): real
  {
    if summaries == [] then 0.0
    else summaries[0].actualIncome - summaries[0].actualExpenses + NetSum(summaries[1..])
  }

  /** Point by point: the net income is actual income minus actual expenses,
      and the running total adds it to the previous point's. */
  lemma {:induction false} AccumulateAt(summaries: seq<MonthSummary>, carried: real, i: nat)
    requires i < |summaries|
    ensures var r := Accumulate(summaries, carried);
            r[i].month == summaries[i].month &&
            r[i].net == summaries[i].actualIncome - summaries[i].actualExpenses &&
            r[i].cumulative == (if i == 0 then carried else r[i - 1].cumulative) + r[i].net
  {
    if i > 0 {
      var s := summaries[0];
      AccumulateAt(summaries[1..], carried + (s.actualIncome - s.actualExpenses), i - 1);
      if i > 1 {
        AccumulateAt(summaries[1..], carried + (s.actualIncome - s.actualExpenses), i - 2);
      }
    }
  }

  lemma {:induction false} AccumulateLast(summaries: seq<MonthSummary>, carried: real)
    requires summaries != []
    ensures Accumulate(summaries, carried)[|summaries| - 1].cumulative == carried + NetSum(summaries)
  {
    if |summaries| > 1 {
      var s := summaries[0];
      AccumulateLast(summaries[1..], carried + (s.actualIncome - s.actualExpenses));
    }
  }

  lemma {:induction false} NetSumOfKeys(income: seq<Row>, expenses: seq<Row>, keys: seq<string>)
    ensures NetSum(SummarizeKeys(income, expenses, keys)) ==
            KeySum(income, keys, Actual) - KeySum(expenses, keys, Actual)
  {
    if keys != [] {
      assert SummarizeKeys(income, expenses, keys)[1..] == SummarizeKeys(income, expenses, keys[1..]);
      NetSumOfKeys(income, expenses, keys[1..]);
    }
  }

  /** The last cumulative value is total actual income minus total actual
      expenses. */
  lemma CashFlowLast(income: seq<Row>, expenses: seq<Row>)
    requires CashFlow(income, expenses) != []
    ensures var r := CashFlow(income, expenses);
            r[|r| - 1].cumulative == Total(income, Actual) - Total(expenses, Actual)
  {
    AccumulateLast(MonthlySummary(income, expenses), 0.0);
    NetTotal(income, expenses);
  }

  /** Over all months of the summary, the net incomes add up to total actual
      income minus total actual expenses. */
  lemma NetTotal(income: seq<Row>, expenses: seq<Row>)
    ensures NetSum(MonthlySummary(income, expenses)) == Total(income, Actual) - Total(expenses, Actual)
  {
    var keys := MonthKeys(income, expenses);
    SortedIsDistinct(Calendar, keys);
    forall row | row in income ensures row.month in keys {
      MonthsMembership(income, row.month);
    }
    forall row | row in expenses ensures row.month in keys {
      MonthsMembership(expenses, row.month);
    }
    NetSumOfKeys(income, expenses, keys);
    GroupedTotal(income, keys, Actual);
    GroupedTotal(expenses, keys, Actual);
  }

  /** The cash flow does not depend on the order in which rows arrive: the
      running total is always taken in calendar order. */
  lemma CashFlowPermutation(income: seq<Row>, expenses: seq<Row>, income': seq<Row>, expenses': seq<Row>)
    requires multiset(income) == multiset(income') && multiset(expenses) == multiset(expenses')
    ensures CashFlow(income, expenses) == CashFlow(income', expenses')
  {
    SummaryPermutation(income, expenses, income', expenses');
  }

  // ---------------------------------------------------------------------------
  // Financial metrics

  datatype Metrics = Metrics(totalIncome: real, totalExpenses: real, netIncome: real,
                             savingsRate: real, expenseRatio: real)

  lemma Percentages(income: real, expenses: real, net: real)
    requires income != 0.0 && net == income - expenses
    ensures (net / income) * 100.0 * income == 100.0 * net
    ensures (expenses / income) * 100.0 * income == 100.0 * expenses
    ensures (net / income) * 100.0 + (expenses / income) * 100.0 == 100.0
  {
    var a := net / income;
    var b := expenses / income;
    assert a * income == net;
    assert b * income == expenses;
    assert (a + b) * income == a * income + b * income;
    assert (a + b - 1.0) * income == 0.0;
    assert a + b == 1.0;
  }

  lemma PercentagesWhenIncome(income: real, expenses: real, net: real)
    requires net == income - expenses
    ensures income != 0.0 ==>
              (net / income) * 100.0 * income == 100.0 * net &&
              (expenses / income) * 100.0 * income == 100.0 * expenses &&
              (net / income) * 100.0 + (expenses / income) * 100.0 == 100.0
  {
    if income != 0.0 {
      Percentages(income, expenses, net);
    }
  }

  /** `update_financial_metrics`: totals of the actual amounts, and the two
      percentages, which are 0 when there is no income. */
  function FinancialMetrics(income: seq<Row>, expenses: seq<Row>): (m: Metrics)
    ensures m.totalIncome == Total(income, Actual) && m.totalExpenses == Total(expenses, Actual)
    ensures m.netIncome == m.totalIncome - m.totalExpenses
    ensures m.totalIncome == 0.0 ==> m.savingsRate == 0.0 && m.expenseRatio == 0.0
    ensures m.totalIncome != 0.0 ==>
              m.savingsRate * m.totalIncome == 100.0 * m.netIncome &&
              m.expenseRatio * m.totalIncome == 100.0 * m.totalExpenses &&
              m.savingsRate + m.expenseRatio == 100.0
  {
    var income_ := Total(income, Actual);
    var expenses_ := Total(expenses, Actual);
    var net := income_ - expenses_;
    PercentagesWhenIncome(income_, expenses_, net);
    var savingsRate := if income_ != 0.0 then (net / income_) * 100.0 else 0.0;
    var expenseRatio := if income_ != 0.0 then (expenses_ / income_) * 100.0 else 0.0;
    Metrics(income_, expenses_, net, savingsRate, expenseRatio)
  }

  /** The metrics and the cash-flow chart agree: the chart ends at the net income. */
  lemma MetricsMatchCashFlow(income: seq<Row>, expenses: seq<Row>)
    requires CashFlow(income, expenses) != []
    ensures var r := CashFlow(income, expenses);
            r[|r| - 1].cumulative == FinancialMetrics(income, expenses).netIncome
  {
    CashFlowLast(income, expenses);
  }

  /** The chart's net incomes add up to the actual income of the selected
      sources minus the actual expenses of the selected categories. */
  lemma BudgetChartNet(income: seq<Row>, expenses: seq<Row>, sources: seq<string>, categories: seq<string>)
    requires sources != [] && categories != []
    ensures NetSum(BudgetChart(income, expenses, Some(sources), Some(categories))) ==
            Total(Keep(income, sources), Actual) - Total(Keep(expenses, categories), Actual)
  {
    NetTotal(Keep(income, sources), Keep(expenses, categories));
  }

  /** A month appears in the chart exactly when a selected income row or a
      selected expense row has it. */
  lemma BudgetChartMonths(income: seq<Row>, expenses: seq<Row>, sources: seq<string>, categories: seq<string>,
                          m: string)
    requires sources != [] && categories != []
    ensures var chart := BudgetChart(income, expenses, Some(sources), Some(categories));
            (exists i :: 0 <= i < |chart| && chart[i].month == m) <==>
            (exists row :: row in income && row.name in sources && row.month == m) ||
            (exists row :: row in expenses && row.name in categories && row.month == m)
  {
    var income' := Keep(income, sources);
    var expenses' := Keep(expenses, categories);
    KeepMembers(income, sources);
    KeepMembers(expenses, categories);
    assert BudgetChart(income, expenses, Some(sources), Some(categories)) == MonthlySummary(income', expenses');
    SummaryMonths(income', expenses', m);
    if exists row :: row in income' && row.month == m {
      var row :| row in income' && row.month == m;
      assert row in income && row.name in sources;
    }
    if exists row :: row in expenses' && row.month == m {
      var row :| row in expenses' && row.month == m;
      assert row in expenses && row.name in categories;
    }
    if exists row :: row in income && row.name in sources && row.month == m {
      var row :| row in income && row.name in sources && row.month == m;
      assert row in income';
    }
    if exists row :: row in expenses && row.name in categories && row.month == m {
      var row :| row in expenses && row.name in categories && row.month == m;
      assert row in expenses';
    }
  }

  lemma KeepMembers(rows: seq<Row>, selection: seq<string>)
    ensures forall row :: row in Keep(rows, selection) <==> row in rows && row.name in selection
  {
    var kept := Keep(rows, selection);
    forall row ensures row in kept <==> row in rows && row.name in selection {
      assert row in kept <==> multiset(kept)[row] > 0;
      assert row in rows <==> multiset(rows)[row] > 0;
    }
  }
}
