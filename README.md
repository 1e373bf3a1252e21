# Interactive financial dashboard: a verified model of its calculations

This project models the calculating core of a personal-finance dashboard written in Python
with pandas and Dash, and proves properties of it in Dafny. The core covers:

- **Budget reconciliation** (`calculate_budget_vs_actual`, `calculate_total_variance`). Budget
  lines and actual lines are outer-joined on their category. Missing fields are filled with 0,
  each row gets variance = budgeted − actual, and the columns are totalled.
- **The editable income and expenses tables** of the budgeting page. A table starts with one
  blank row. *Clear Data* empties it and *Add Row* appends a blank row. After an edit, every
  row's variance is recomputed: actual − budgeted for income, budgeted − actual for expenses.
- **The monthly views** built from the two tables. The chart filters rows by source or
  category, coerces amounts to numbers, and sums per month. The two summaries are
  outer-merged on the month and sorted in calendar order. A cumulative net-income series and
  the savings-rate and expense-ratio metrics are derived from them.
- **Technical indicators** on a price series: RSI over a rolling window, MACD with its signal
  line (exponential moving averages with `adjust=False`), and beta as sample covariance over
  sample variance.
- **The savings calculator**: the required contribution, the compound-growth projection with
  monthly contributions, and the input check of its console loop.

Python floats are modelled as Dafny `real`s. A pandas NaN is the explicit value `Undefined` of
`Common.Measure`. Strings are `seq<char>`, compared by code point as Python compares them.

Modules:

| file | module | contents |
|---|---|---|
| common.dfy | Common | `Option`, `Result`, `Measure` |
| keys.dfy | Keys | string order, calendar month rank, sorted key lists |
| budget.dfy | Budget | outer join on category, variance, totals |
| tables.dfy | Tables | cells, rows, variance recomputation, the `Table` class |
| monthly.dfy | Monthly | filter, monthly sums, merge and calendar sort, cash flow, metrics |
| indicators.dfy | Indicators | RSI, EMA, MACD, covariance, variance, beta |
| savings.dfy | Savings | required contribution, projection, input check |

The model follows what the code does, including where that differs from what the dashboard is described as doing:

- **Duplicate categories.** A category with k budget lines and j actual lines yields k·j joined
  rows, in budget-major order, because that is what `pd.merge` does. It does not yield one row
  per category.
- **Key order of the merge.** The merged rows come in lexicographic order of category, because
  an outer merge sorts its keys. Input order is not kept.
- **Text columns after the merge.** `fillna(0)` also fills the `Time Period` and `Date` of an
  unmatched row with 0 (`Filled.Zero`).
- **Month labels outside the calendar.** A label that is not a calendar month name (including
  the blank label of the initial row) sorts after all calendar months. Such labels keep the
  merge's lexicographic order among themselves. The "calendar order always" promise holds only
  for calendar labels.
- **Where RSI becomes defined.** `diff()` leaves a NaN at position 0, and `where` turns it into a
  0 move. So the first defined RSI value is at position window − 1, not at position window.
- **Beta with a flat market.** A market series with zero variance gives NaN (`Undefined`). No
  explicit failure is raised.

## Model

| member | source | states |
|---|---|---|
| Keys.LexTransitive | app_backup.py:256-262 | the string order used to sort merge keys is transitive |
| Keys.LexTotal | app_backup.py:256-262 | any two distinct strings are ordered one way or the other |
| Keys.MonthRank | app_backup.py:14 | a label's rank is below 12 exactly when it is a calendar month name, and then it is that name's position in January..December |
| Keys.BeforeTransitive | app_backup.py:265-266 | calendar-then-lexicographic order is transitive |
| Keys.BeforeTotal | app_backup.py:265-266 | calendar-then-lexicographic order is total on distinct labels |
| Keys.SortedKeys | app_backup.py:256-262 | the merged key list is strictly sorted and holds exactly the keys of the inputs |
| Keys.SortedUnique | app_backup.py:256-266 | two strictly sorted key lists with the same members are equal, so the sorted key list does not depend on input order |
| Budget.BudgetFor | calculations/budget_calculations.py:10 | a line is among the budget lines of a category exactly when it is an input line with that category |
| Budget.BudgetForCount | calculations/budget_calculations.py:10 | each budget line of the category is kept as many times as it occurs in the input, and no other line is kept |
| Budget.BudgetForAppend | calculations/budget_calculations.py:10 | the category's lines of two concatenated inputs are those of the first followed by those of the second, so input order is kept |
| Budget.BudgetForSingle | calculations/budget_calculations.py:10 | a single line is kept exactly when it has the category |
| Budget.ActualFor | calculations/budget_calculations.py:10 | a line is among the actual lines of a category exactly when it is an input line with that category |
| Budget.ActualForCount | calculations/budget_calculations.py:10 | each actual line of the category is kept as many times as it occurs in the input, and no other line is kept |
| Budget.ActualForAppend | calculations/budget_calculations.py:10 | the category's actual lines of two concatenated inputs are those of the first followed by those of the second |
| Budget.ActualForSingle | calculations/budget_calculations.py:10 | a single actual line is kept exactly when it has the category |
| Budget.Product | calculations/budget_calculations.py:10 | k budget lines and j actual lines of one category join into k·j rows |
| Budget.ProductAt | calculations/budget_calculations.py:10 | joined row i·j + m pairs budget line i with actual line m (budget-major order) |
| Budget.JoinKeys | calculations/budget_calculations.py:10 | merge keys are strictly increasing lexicographically and are exactly the categories on either side |
| Budget.BudgetVsActual | calculations/budget_calculations.py:10-12 | every reconciled row has variance = budgeted − actual |
| Budget.RowsOfCategory | calculations/budget_calculations.py:10-11 | the rows of one category are exactly that category's join block: product, budget-only or actual-only |
| Budget.CategoryRowCount | calculations/budget_calculations.py:10 | a category has k·j rows when both sides have lines, k or j when only one side has them |
| Budget.CategoriesAreUnion | calculations/budget_calculations.py:10 | a category has a row if and only if it occurs in the budget or in the actuals |
| Budget.BothSides | calculations/budget_calculations.py:10 | every budget line and actual line of the same category meet in one joined row |
| Budget.BudgetOnlyCategory | calculations/budget_calculations.py:10-12 | a category with no actuals yields one row per budget line, with actual 0, date filled with 0 and variance = budgeted |
| Budget.ActualOnlyCategory | calculations/budget_calculations.py:10-12 | a category with no budget yields one row per actual line, with budgeted 0, period filled with 0 and variance = −actual |
| Budget.BudgetLineKept | calculations/budget_calculations.py:10-11 | no budget line is lost: each appears in some row with its category and amount |
| Budget.ActualLineKept | calculations/budget_calculations.py:10-11 | no actual line is lost: each appears in some row with its category and amount |
| Budget.RentExample | calculations/budget_calculations.py:10-12 | a rent budget of 1000 against 950 spent reconciles to one row with variance 50 |
| Budget.TotalVariance | calculations/budget_calculations.py:15-22 | total variance = total budgeted − total actual, and an empty table totals to (0, 0, 0) |
| Budget.TotalIsSumOfVariances | calculations/budget_calculations.py:19-21 | on rows whose variance is budgeted − actual, the total variance equals the sum of the row variances |
| Budget.MergedTotals | calculations/budget_calculations.py:5-22 | the total variance of a reconciliation is the sum of its row variances |
| Tables.EditAmount | app_backup.py:150-151 | the edit path fails exactly on non-blank text; the amounts it reads are stated by `CoercionsAgree` |
| Tables.ChartAmount | app_backup.py:245-249 | wherever the edit path reads an amount, the chart path reads the same one; text counts as 0 |
| Tables.CoercionsAgree | app_backup.py:150 | the chart path (app_backup.py lines 245-249) is the edit path with its failure replaced by 0; both read a blank or missing cell as 0, and the edit path reads a number as itself |
| Tables.Variance | app_backup.py:152 | a variance is positive exactly when the outcome is favourable (more income or less spending than budgeted), and 0 exactly when actual equals budgeted |
| Tables.VarianceMirror | app_backup.py:152-194 | the same amounts give opposite variances in the income table and the expenses table |
| Tables.RecomputeVariances | app_backup.py:145-154 | the loop succeeds exactly when every row parses; it then copies every row and changes only its variance; otherwise it stops at the first row that does not parse |
| Tables.RecomputeSettles | app_backup.py:187-196 | after a recomputation every variance matches its amounts, and recomputing again changes nothing |
| Tables.Table.constructor | app_backup.py:34 | a new table holds one blank row |
| Tables.Table.Clear | app_backup.py:134-136 | Clear Data leaves the table empty |
| Tables.Table.AddRow | app_backup.py:138-143 | Add Row keeps every existing row (a null table counts as empty) and appends one blank row |
| Tables.Table.Edit | app_backup.py:145-157 | an edit recomputes all variances when every row parses; otherwise (or on a null table) the table keeps its data and the failing row is the first bad one |
| Monthly.Keep | app_backup.py:233-238 | filtering keeps every row whose source or category is selected, as often as it occurs, and no other row |
| Monthly.Filter | app_backup.py:233-238 | an empty or absent selection keeps the whole table |
| Monthly.FilterToNothing | app_backup.py:233-238 | a selection that matches no row leaves nothing |
| Monthly.MonthTotalPermutation | app_backup.py:251-253 | a month's sum does not depend on row order |
| Monthly.GroupedTotal | app_backup.py:251-253 | the per-month sums add up to the column total |
| Monthly.MonthlySummary | app_backup.py:251-266 | one entry per summary month, and the entries are in strictly increasing calendar-then-string order |
| Monthly.BudgetChart | app_backup.py:228-266 | with no source and no category selected, the chart shows the summary of the whole tables |
| Monthly.BudgetChartNet | app_backup.py:233-262 | the chart's net incomes add up to the actual income of the selected sources minus the actual expenses of the selected categories |
| Monthly.BudgetChartMonths | app_backup.py:233-266 | a month is in the chart exactly when a selected income row or a selected expense row has it |
| Monthly.MonthKeys | app_backup.py:255-266 | the summary months are in calendar order (other labels after) and are exactly the months of either table |
| Monthly.CalendarNotAlphabetical | app_backup.py:264-266 | an April income row and a January expense row give the months January, April, although "April" sorts first as a string |
| Monthly.SummaryMonths | app_backup.py:251-266 | a month appears in the summary if and only if some income or expense row has it, and no month appears twice |
| Monthly.SummaryOrder | app_backup.py:264-266 | summary months have strictly increasing calendar rank; only non-calendar labels share rank 12 |
| Monthly.SummaryAmounts | app_backup.py:251-262 | each summary entry holds, for its month, the budgeted and actual sums of income and of expenses (0 when a side lacks the month) |
| Monthly.SummaryPermutation | app_backup.py:251-266 | the summary does not depend on the order of the table rows |
| Monthly.CashFlow | app_backup.py:336-356 | one point per summary month, in the summary's calendar order, whose net income is that month's actual income − actual expenses |
| Monthly.NetTotal | app_backup.py:336-349 | the net incomes of all months add up to total actual income − total actual expenses |
| Monthly.AccumulateAt | app_backup.py:349-356 | each cumulative value is the running sum of the net incomes up to that month |
| Monthly.CashFlowLast | app_backup.py:336-356 | the last cumulative net income equals total actual income − total actual expenses |
| Monthly.CashFlowPermutation | app_backup.py:336-356 | the cash-flow series does not depend on the order of the table rows |
| Monthly.FinancialMetrics | app_backup.py:392-405 | zero income gives rates 0 and 0; otherwise savings rate × income = 100 × net, expense ratio × income = 100 × expenses, and the two rates sum to 100 |
| Monthly.MetricsMatchCashFlow | app_backup.py:336-405 | the metrics' net income equals the last cumulative value of the cash-flow chart |
| Indicators.RsiAt | calculations/financial_calculations.py:11-17 | every defined RSI value lies in [0, 100], including the 100 that an infinite gain/loss ratio gives |
| Indicators.Rsi | calculations/financial_calculations.py:11-17 | the RSI series has one value per price |
| Indicators.RsiDefinedFrom | calculations/financial_calculations.py:13-16 | the RSI is NaN exactly before the window fills, or when the window has neither gains nor losses (always, for a window of 0) |
| Indicators.RsiAlgebra | calculations/financial_calculations.py:15-16 | 100 − 100/(1 + gain/loss) = 100·gain/(gain + loss), which lies in [0, 100] |
| Indicators.RsiRange | calculations/financial_calculations.py:13-16 | every defined RSI value lies between 0 and 100 |
| Indicators.RsiRising | calculations/financial_calculations.py:13-16 | a strictly rising series has RSI exactly 100 once the window is filled |
| Indicators.RsiFalling | calculations/financial_calculations.py:13-16 | a strictly falling series has RSI exactly 0 once the window is filled |
| Indicators.RsiFlat | calculations/financial_calculations.py:13-16 | a flat series has RSI NaN everywhere |
| Indicators.Alpha | calculations/financial_calculations.py:21 | the smoothing factor 2/(span + 1) lies in (0, 1] |
| Indicators.Ema | calculations/financial_calculations.py:21-22 | the EMA has one value per input and starts at the first input |
| Indicators.EmaConstant | calculations/financial_calculations.py:21-22 | the EMA of a constant series is that constant |
| Indicators.EmaWithin | calculations/financial_calculations.py:21-22 | every EMA value lies between the least and the greatest input seen so far |
| Indicators.Macd | calculations/financial_calculations.py:20-25 | MACD and signal have one value per price and both start at 0 |
| Indicators.MacdConstant | calculations/financial_calculations.py:20-25 | a constant price series has MACD and signal 0 throughout |
| Indicators.MacdBounded | calculations/financial_calculations.py:20-25 | for prices within [lo, hi], MACD and signal stay within [lo − hi, hi − lo] |
| Indicators.SampleCov | calculations/financial_calculations.py:29 | the sample covariance is defined exactly when there are at least two points |
| Indicators.CovSymmetric | calculations/financial_calculations.py:29 | the covariance of x with y equals that of y with x |
| Indicators.SampleVar | calculations/financial_calculations.py:29 | the sample variance is defined exactly when there are at least two points, and is then non-negative |
| Indicators.Beta | calculations/financial_calculations.py:28-29 | beta is defined exactly when the market variance is defined and non-zero, and then beta × market variance = covariance |
| Indicators.BetaZeroVariance | calculations/financial_calculations.py:29 | a market with zero variance leaves beta NaN |
| Indicators.BetaSelf | calculations/financial_calculations.py:29 | a series measured against itself has beta 1 |
| Indicators.BetaOfScaledMarket | calculations/financial_calculations.py:29 | a stock whose returns are k times the market's has beta k |
| Savings.RequiredContribution | calculations/savings_calculations.py:6-11 | a timeframe of 0 raises; otherwise contribution × months = goal − balance, and the result is negative when the balance exceeds the goal |
| Savings.FrequencyIgnored | calculations/savings_calculations.py:8-11 | the contribution frequency never changes the required contribution |
| Savings.RequiredReachesGoal | calculations/savings_calculations.py:9-10 | paying the required contribution monthly, without growth, reaches the goal exactly |
| Savings.PowInt | calculations/savings_calculations.py:20 | `g ** n` is g^n for n ≥ 0, its reciprocal for n < 0, and raises exactly when g is 0 and n < 0 |
| Savings.MonthlyProjection | calculations/savings_calculations.py:14-21 | raises exactly when the rate is 0 (or 1 + r is 0 with a negative timeframe); otherwise FV = B(1 + r)^n + C((1 + r)^n − 1)/r with r = rate/12 |
| Savings.ProjectionSimulates | calculations/savings_calculations.py:15-20 | for every non-zero rate, the closed form equals growing the balance and paying the contribution month by month |
| Savings.NoContribution | calculations/savings_calculations.py:20 | with no contribution the projection is B(1 + r)^n |
| Savings.Validate | calculations/savings_calculations.py:34-45 | inputs pass exactly when the frequency is monthly or weekly, no amount or rate is negative and the timeframe is at least one month; a bad frequency is reported first |
| Savings.ValidatedRequired | calculations/savings_calculations.py:43-61 | inputs that pass the check never make the required contribution raise |
| Savings.ZeroRateCrashes | calculations/savings_calculations.py:43-65 | the check admits a zero rate, and the projection then raises |
| Savings.GuardedProjection | calculations/savings_calculations.py:14-21 | it agrees with the projection at every non-zero rate and succeeds at rate 0 |
| Savings.GuardedProjectionSimulates | calculations/savings_calculations.py:14-21 | for every input that passes the check, the guarded projection is the month-by-month balance |

## Findings

| source | as written | input that shows it | evidently intended | confidence | as-written member | corrected member |
|---|---|---|---|---|---|---|
| calculations/savings_calculations.py:43 | the input check rejects only negative return rates, so a rate of 0 passes; option 2 then evaluates `((1 + r) ** n - 1) / r` with r = 0 and raises `ZeroDivisionError` outside the `try` | balance 100, goal 1000, frequency monthly, contribution 50, 12 months, rate 0 | a zero rate projects no growth: balance + months × contribution | high; not executed | Savings.ZeroRateCrashes | Savings.GuardedProjection |

## Left out

- Dash layout, callback dispatch (`callback_context`, `PreventUpdate`) and the other UI modules are left out; they are presentation glue. `Table` models the state each callback returns.
- Plotly figure construction is left out; it only renders the modelled series.
- JSON persistence and the market-data download are left out; they are I/O.
- The module-level fetch and prints of the indicators file are left out.
- `calculate_volatility` is left out; it needs a rolling standard deviation and a square root of floats.
- `calculate_beta_monthly` is left out; it depends on pandas' `resample('MS')` date binning.
- The weekly projection is left out: its exponent, months·52/12, is not a whole number. `MonthlyProjection` models the monthly branch only.
- The console `input()`/`print` loop of the savings calculator is left out. Only its input check is modelled (`Validate`), on the frequency after `strip().lower()`; parsing numbers from text (`ValueError`) is left out.
- Float rounding, overflow, infinities and the `:.2f` formatting are left out. Arithmetic is on exact reals.
- Tables.EditAmount, Tables.ChartAmount: whether a string spells a number is decided before the model. `Cell.Num` stands for a number, or for a string that `float()` and `pd.to_numeric` both read as the same finite number; `Cell.Text` stands for a string that neither reads. Strings the two parsers treat differently are left out: `'1_000'` is 1000.0 to `float()` but 0 on the chart path, and `'nan'` is NaN on the edit path but 0 on the chart path.
- After *Clear Data* the table is `[]`, and a DataFrame built from it has no amount or `Month` columns, so app_backup.py:252 and app_backup.py:398 raise `KeyError`. The model's rows always have every field: `MonthlySummary([], [])` is `[]` and `FinancialMetrics([], [])` gives zeros.
- Monthly.SummaryOrder: pandas turns a non-calendar month label into NaN when it makes the column categorical. The model keeps the label and only proves where its entry sorts.
- The label of a row without a `Month` column is the blank label ''. pandas' `groupby` would drop a row whose month is null; null months are not modelled.
- Indicators.BetaZeroVariance: the model returns NaN whenever the market variance is 0. It does not prove that the covariance is then also 0, which would make pandas' result 0/0 rather than ±∞.
- Index alignment of two pandas series is left out; beta takes two equal-length sequences. The leading NaN of `pct_change()` is the caller's concern.
- Indicators.Ema, Indicators.Macd: a span below 1 is excluded by `requires`; `ewm` rejects such a span itself. `Rsi` takes any window: a window of 0, which `rolling` accepts, gives NaN everywhere. The lemmas about rising and falling series need a window of at least 1.
- Savings.MonthlyProjection: the closed-form and simulation lemmas cover timeframes ≥ 0. A negative timeframe is modelled only in the function itself.
