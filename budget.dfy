/** Budget-versus-actual reconciliation: an outer join of budget lines and
    actual lines on their category, with every missing field filled with 0,
    a per-row variance, and the portfolio totals. */
module Budget {
  import opened Keys

  /** A saved budget line: `Category`, `Budgeted Amount`, `Time Period`. */
  datatype BudgetItem = BudgetItem(category: string, budgeted: real, period: string)

  /** A saved actual line: `Category`, `Actual Amount`, `Date`. */
  datatype ActualItem = ActualItem(category: string, actual: real, date: string)

  /** A text column after `fillna(0)`: the text itself, or the 0 written into
      a cell the join left empty. */
  datatype Filled = Text(s: string) | Zero

  /** A row of the merged table. */
  datatype Reconciled = Reconciled(category: string, budgeted: real, period: Filled,
                                   actual: real, date: Filled, variance: real)

  /** A merged row with its `Variance = Budgeted Amount - Actual Amount` column. */
  function Merge(category: string, budgeted: real, period: Filled, actual: real, date: Filled): Reconciled
  {
    Reconciled(category, budgeted, period, actual, date, budgeted - actual)
  }

  /** A budget line matched with an actual line of the same category. */
  function Joined(b: BudgetItem, a: ActualItem): Reconciled
  {
    Merge(b.category, b.budgeted, Text(b.period), a.actual, Text(a.date))
  }

  /** A budget line whose category has no actual line: the actual side is 0. */
  function BudgetOnly(b: BudgetItem): Reconciled
  {
    Merge(b.category, b.budgeted, Text(b.period), 0.0, Zero)
  }

  /** An actual line whose category has no budget line: the budget side is 0. */
  function ActualOnly(a: ActualItem): Reconciled
  {
    Merge(a.category, 0.0, Zero, a.actual, Text(a.date))
  }

  function BudgetCategories(budget: seq<BudgetItem>): (r: seq<string>)
    ensures |r| == |budget| && forall i :: 0 <= i < |r| ==> r[i] == budget[i].category
  {
    seq(|budget|, i requires 0 <= i < |budget| => budget[i].category)
  }

  function ActualCategories(actuals: seq<ActualItem>): (r: seq<string>)
    ensures |r| == |actuals| && forall i :: 0 <= i < |r| ==> r[i] == actuals[i].category
  {
    seq(|actuals|, i requires 0 <= i < |actuals| => actuals[i].category)
  }

  /** The budget lines of one category, each as often as it occurs in the
      input; `BudgetForAppend` gives their order. */
  function BudgetFor(budget: seq<BudgetItem>, c: string): (r: seq<BudgetItem>)
    ensures forall b :: b in r <==> b in budget && b.category == c
  {
    if budget == [] then []
    else
      (if budget[0].category == c then [budget[0]] else []) + BudgetFor(budget[1..], c)
  }

  /** The actual lines of one category, each as often as it occurs in the
      input; `ActualForAppend` gives their order. */
  function ActualFor(actuals: seq<ActualItem>, c: string): (r: seq<ActualItem>)
    ensures forall a :: a in r <==> a in actuals && a.category == c
  {
    if actuals == [] then []
    else
      (if actuals[0].category == c then [actuals[0]] else []) + ActualFor(actuals[1..], c)
  }

  /** Each line of the category is kept as often as it occurs, and no other. */
  lemma {:induction false} BudgetForCount(budget: seq<BudgetItem>, c: string)
    ensures forall b :: multiset(BudgetFor(budget, c))[b] == if b.category == c then multiset(budget)[b] else 0
  {
    if budget != [] {
      BudgetForCount(budget[1..], c);
      assert budget == [budget[0]] + budget[1..];
    }
  }

  /** As `BudgetForCount`, for actual lines. */
  lemma {:induction false} ActualForCount(actuals: seq<ActualItem>, c: string)
    ensures forall a :: multiset(ActualFor(actuals, c))[a] == if a.category == c then multiset(actuals)[a] else 0
  {
    if actuals != [] {
      ActualForCount(actuals[1..], c);
      assert actuals == [actuals[0]] + actuals[1..];
    }
  }

  /** Selecting a category keeps input order: the lines of a concatenation
      are the lines of the first part followed by those of the second. With
      `BudgetForSingle` this fixes the result line by line. */
  lemma {:induction false} BudgetForAppend(a: seq<BudgetItem>, b: seq<BudgetItem>, c: string)
    ensures BudgetFor(a + b, c) == BudgetFor(a, c) + BudgetFor(b, c)
  {
    if a == [] {
      assert a + b == b;
    } else {
      assert (a + b)[0] == a[0];
      assert (a + b)[1..] == a[1..] + b;
      BudgetForAppend(a[1..], b, c);
    }
  }

  /** A single line is kept exactly when it has the category. */
  lemma BudgetForSingle(b: BudgetItem, c: string)
    ensures BudgetFor([b], c) == if b.category == c then [b] else []
  {
    assert [b][1..] == [];
  }

  /** As `BudgetForSingle`, for actual lines. */
  lemma ActualForSingle(a: ActualItem, c: string)
    ensures ActualFor([a], c) == if a.category == c then [a] else []
  {
    assert [a][1..] == [];
  }

  /** As `BudgetForAppend`, for actual lines. */
  lemma {:induction false} ActualForAppend(a: seq<ActualItem>, b: seq<ActualItem>, c: string)
    ensures ActualFor(a + b, c) == ActualFor(a, c) + ActualFor(b, c)
  {
    if a == [] {
      assert a + b == b;
    } else {
      assert (a + b)[0] == a[0];
      assert (a + b)[1..] == a[1..] + b;
      ActualForAppend(a[1..], b, c);
    }
  }

  /** Many-to-many join of the lines of one category: each budget line in
      turn, paired with every actual line in order. */
  function Product(bs: seq<BudgetItem>, acts: seq<ActualItem>): (r: seq<Reconciled>)
    ensures |r| == |bs| * |acts|
  {
    if bs == [] then []
    else
      var first := seq(|acts|, m requires 0 <= m < |acts| => Joined(bs[0], acts[m]));
      first + Product(bs[1..], acts)
  }

  /** Number of merged rows an outer join makes from k budget lines and j
      actual lines of one category. */
  function JoinCount(k: nat, j: nat): nat
  {
    if k > 0 && j > 0 then k * j else k + j
  }

  /** The merged rows of one category. */
  function Block(budget: seq<BudgetItem>, actuals: seq<ActualItem>, c: string): seq<Reconciled>
  {
    var bs := BudgetFor(budget, c);
    var acts := ActualFor(actuals, c);
    if bs != [] && acts != [] then Product(bs, acts)
    else if bs != [] then seq(|bs|, i requires 0 <= i < |bs| => BudgetOnly(bs[i]))
    else seq(|acts|, m requires 0 <= m < |acts| => ActualOnly(acts[m]))
  }

  lemma ProductRows(bs: seq<BudgetItem>, acts: seq<ActualItem>, c: string)
    requires forall b :: b in bs ==> b.category == c
    ensures forall row :: row in Product(bs, acts) ==> row.category == c && row.variance == row.budgeted - row.actual
  {
    if bs != [] {
      ProductRows(bs[1..], acts, c);
    }
  }

  /** Every row of a block carries the block's category and its variance. */
  lemma BlockRows(budget: seq<BudgetItem>, actuals: seq<ActualItem>, c: string)
    ensures forall row :: row in Block(budget, actuals, c) ==>
              row.category == c && row.variance == row.budgeted - row.actual
    ensures |Block(budget, actuals, c)| == JoinCount(|BudgetFor(budget, c)|, |ActualFor(actuals, c)|)
  {
    var bs := BudgetFor(budget, c);
    assert forall i :: 0 <= i < |bs| ==> bs[i] in bs;
    ProductRows(bs, ActualFor(actuals, c), c);
  }

  function Blocks(budget: seq<BudgetItem>, actuals: seq<ActualItem>, keys: seq<string>): (r: seq<Reconciled>)
    ensures forall row :: row in r ==> row.category in keys && row.variance == row.budgeted - row.actual
  {
    if keys == [] then []
    else
      BlockRows(budget, actuals, keys[0]);
      Block(budget, actuals, keys[0]) + Blocks(budget, actuals, keys[1..])
  }

  /** The join keys: every category of either side, each once, sorted. */
  function JoinKeys(budget: seq<BudgetItem>, actuals: seq<ActualItem>): (r: seq<string>)
    ensures StrictlySorted(Lexicographic, r)
    ensures forall c :: c in r <==> c in BudgetCategories(budget) || c in ActualCategories(actuals)
  {
    SortedKeys(Lexicographic, BudgetCategories(budget) + ActualCategories(actuals))
  }

  /** `calculate_budget_vs_actual`: outer merge on `Category`, `fillna(0)`,
      then `Variance = Budgeted Amount - Actual Amount` on every row. */
  function BudgetVsActual(budget: seq<BudgetItem>, actuals: seq<ActualItem>): (r: seq<Reconciled>)
    ensures forall row :: row in r ==> row.variance == row.budgeted - row.actual
  {
    Blocks(budget, actuals, JoinKeys(budget, actuals))
  }

  /** The rows of a merged table that carry category `c`, in order. */
  function RowsFor(rows: seq<Reconciled>, c: string): (r: seq<Reconciled>)
    ensures forall row :: row in r <==> row in rows && row.category == c
  {
    if rows == [] then []
    else (if rows[0].category == c then [rows[0]] else []) + RowsFor(rows[1..], c)
  }

  lemma {:induction false} RowsForAppend(a: seq<Reconciled>, b: seq<Reconciled>, c: string)
    ensures RowsFor(a + b, c) == RowsFor(a, c) + RowsFor(b, c)
  {
    if a == [] {
      assert a + b == b;
    } else {
      assert (a + b)[0] == a[0];
      assert (a + b)[1..] == a[1..] + b;
      RowsForAppend(a[1..], b, c);
    }
  }

  lemma {:induction false} RowsForSame(rows: seq<Reconciled>, c: string)
    requires forall row :: row in rows ==> row.category == c
    ensures RowsFor(rows, c) == rows
  {
    if rows != [] {
      RowsForSame(rows[1..], c);
    }
  }

  lemma {:induction false} RowsForOther(rows: seq<Reconciled>, c: string)
    requires forall row :: row in rows ==> row.category != c
    ensures RowsFor(rows, c) == []
  {
    if rows != [] {
      RowsForOther(rows[1..], c);
    }
  }

  lemma {:induction false} RowsForBlocks(budget: seq<BudgetItem>, actuals: seq<ActualItem>,
                                         keys: seq<string>, c: string)
    requires Distinct(keys)
    ensures RowsFor(Blocks(budget, actuals, keys), c) ==
            if c in keys then Block(budget, actuals, c) else []
  {
    if keys != [] {
      var k := keys[0];
      BlockRows(budget, actuals, k);
      RowsForAppend(Block(budget, actuals, k), Blocks(budget, actuals, keys[1..]), c);
      RowsForBlocks(budget, actuals, keys[1..], c);
      if k == c {
        RowsForSame(Block(budget, actuals, k), c);
        assert c !in keys[1..] by {
          forall j | 0 < j < |keys| ensures keys[j] != c { }
        }
      } else {
        RowsForOther(Block(budget, actuals, k), c);
      }
    }
  }

  lemma {:induction false} NoBudgetLines(budget: seq<BudgetItem>, c: string)
    requires forall i :: 0 <= i < |budget| ==> budget[i].category != c
    ensures BudgetFor(budget, c) == []
  {
    if budget != [] {
      NoBudgetLines(budget[1..], c);
    }
  }

  lemma {:induction false} NoActualLines(actuals: seq<ActualItem>, c: string)
    requires forall i :: 0 <= i < |actuals| ==> actuals[i].category != c
    ensures ActualFor(actuals, c) == []
  {
    if actuals != [] {
      NoActualLines(actuals[1..], c);
    }
  }

  /** The merged rows of category `c` are exactly that category's join block,
      in order: nothing is summed, dropped or added. */
  lemma RowsOfCategory(budget: seq<BudgetItem>, actuals: seq<ActualItem>, c: string)
    ensures RowsFor(BudgetVsActual(budget, actuals), c) == Block(budget, actuals, c)
  {
    var keys := JoinKeys(budget, actuals);
    SortedIsDistinct(Lexicographic, keys);
    RowsForBlocks(budget, actuals, keys, c);
    if c !in keys {
      NoBudgetLines(budget, c);
      NoActualLines(actuals, c);
    }
  }

  /** Duplicate categories are not summed: k budget lines and j actual lines
      of one category give k * j merged rows when both are present, and one
      row per line when only one side is. */
  lemma CategoryRowCount(budget: seq<BudgetItem>, actuals: seq<ActualItem>, c: string)
    ensures |RowsFor(BudgetVsActual(budget, actuals), c)| ==
            JoinCount(|BudgetFor(budget, c)|, |ActualFor(actuals, c)|)
  {
    RowsOfCategory(budget, actuals, c);
    BlockRows(budget, actuals, c);
  }

  lemma BudgetLinesExist(budget: seq<BudgetItem>, c: string)
    ensures (exists b :: b in budget && b.category == c) <==> BudgetFor(budget, c) != []
  {
    var r := BudgetFor(budget, c);
    if r != [] {
      assert r[0] in r;
    }
  }

  lemma ActualLinesExist(actuals: seq<ActualItem>, c: string)
    ensures (exists a :: a in actuals && a.category == c) <==> ActualFor(actuals, c) != []
  {
    var r := ActualFor(actuals, c);
    if r != [] {
      assert r[0] in r;
    }
  }

  lemma MergedRowsExist(rows: seq<Reconciled>, c: string)
    ensures (exists row :: row in rows && row.category == c) <==> RowsFor(rows, c) != []
  {
    var r := RowsFor(rows, c);
    if r != [] {
      assert r[0] in r;
    }
  }

  lemma JoinCountPositive(k: nat, j: nat)
    ensures JoinCount(k, j) > 0 <==> k > 0 || j > 0
  {
    if k > 0 && j > 0 {
      assert k * j >= k;
    }
  }

  /** The categories of the merged table are exactly the union of the
      categories of the two inputs. */
  lemma CategoriesAreUnion(budget: seq<BudgetItem>, actuals: seq<ActualItem>, c: string)
    ensures (exists row :: row in BudgetVsActual(budget, actuals) && row.category == c) <==>
            (exists b :: b in budget && b.category == c) || (exists a :: a in actuals && a.category == c)
  {
    var merged := BudgetVsActual(budget, actuals);
    CategoryRowCount(budget, actuals, c);
    JoinCountPositive(|BudgetFor(budget, c)|, |ActualFor(actuals, c)|);
    BudgetLinesExist(budget, c);
    ActualLinesExist(actuals, c);
    MergedRowsExist(merged, c);
  }

  /** `pd.merge(..., how='outer')` with duplicated keys: the k budget lines
      and j actual lines of one category give k * j rows, budget-major. */
  lemma {:induction false} ProductAt(bs: seq<BudgetItem>, acts: seq<ActualItem>, i: nat, m: nat)
    requires i < |bs| && m < |acts|
    ensures i * |acts| + m < |Product(bs, acts)|
    ensures Product(bs, acts)[i * |acts| + m] == Joined(bs[i], acts[m])
  {
    var first := seq(|acts|, m requires 0 <= m < |acts| => Joined(bs[0], acts[m]));
    assert Product(bs, acts) == first + Product(bs[1..], acts);
    if i > 0 {
      ProductAt(bs[1..], acts, i - 1, m);
      assert i * |acts| + m == |acts| + ((i - 1) * |acts| + m);
    }
  }

  lemma BlockIsProduct(budget: seq<BudgetItem>, actuals: seq<ActualItem>, c: string)
    requires BudgetFor(budget, c) != [] && ActualFor(actuals, c) != []
    ensures Block(budget, actuals, c) == Product(BudgetFor(budget, c), ActualFor(actuals, c))
  {
  }

  lemma {:induction false} ProductHas(bs: seq<BudgetItem>, acts: seq<ActualItem>, i: nat, m: nat)
    requires i < |bs| && m < |acts|
    ensures Joined(bs[i], acts[m]) in Product(bs, acts)
  {
    var first := seq(|acts|, m requires 0 <= m < |acts| => Joined(bs[0], acts[m]));
    assert Product(bs, acts) == first + Product(bs[1..], acts);
    if i == 0 {
      assert first[m] in first;
    } else {
      ProductHas(bs[1..], acts, i - 1, m);
    }
  }

  /** A category with both budget and actual lines: every budget line is
      paired with every actual line (and `CategoryRowCount` says there are
      exactly k * j such rows). */
  lemma BothSides(budget: seq<BudgetItem>, actuals: seq<ActualItem>, b: BudgetItem, a: ActualItem)
    requires b in budget && a in actuals && b.category == a.category
    ensures Joined(b, a) in RowsFor(BudgetVsActual(budget, actuals), b.category)
  {
    var c := b.category;
    var bs := BudgetFor(budget, c);
    var acts := ActualFor(actuals, c);
    assert b in bs && a in acts;
    var i :| 0 <= i < |bs| && bs[i] == b;
    var m :| 0 <= m < |acts| && acts[m] == a;
    ProductHas(bs, acts, i, m);
    RowsOfCategory(budget, actuals, c);
    BlockIsProduct(budget, actuals, c);
  }

  lemma BlockBudgetOnly(budget: seq<BudgetItem>, actuals: seq<ActualItem>, c: string)
    requires ActualFor(actuals, c) == []
    ensures var bs := BudgetFor(budget, c);
            Block(budget, actuals, c) == seq(|bs|, i requires 0 <= i < |bs| => BudgetOnly(bs[i]))
  {
  }

  lemma BlockActualOnly(budget: seq<BudgetItem>, actuals: seq<ActualItem>, c: string)
    requires BudgetFor(budget, c) == []
    ensures var acts := ActualFor(actuals, c);
            Block(budget, actuals, c) == seq(|acts|, m requires 0 <= m < |acts| => ActualOnly(acts[m]))
  {
  }

  /** A category with budget lines only: one row per budget line, with
      actual amount 0, date 0 and variance equal to the budgeted amount. */
  lemma BudgetOnlyCategory(budget: seq<BudgetItem>, actuals: seq<ActualItem>, c: string)
    requires forall a :: a in actuals ==> a.category != c
    ensures var rows := RowsFor(BudgetVsActual(budget, actuals), c);
            var bs := BudgetFor(budget, c);
            |rows| == |bs| &&
            forall i :: 0 <= i < |rows| ==>
              rows[i].category == c && rows[i].budgeted == bs[i].budgeted &&
              rows[i].period == Text(bs[i].period) &&
              rows[i].actual == 0.0 && rows[i].date == Zero && rows[i].variance == bs[i].budgeted
  {
    var bs := BudgetFor(budget, c);
    assert forall i :: 0 <= i < |bs| ==> bs[i] in bs;
    NoActualLines(actuals, c);
    RowsOfCategory(budget, actuals, c);
    BlockBudgetOnly(budget, actuals, c);
  }

  /** A category with actual lines only: one row per actual line, with
      budgeted amount 0, time period 0 and variance equal to minus the actual. */
  lemma ActualOnlyCategory(budget: seq<BudgetItem>, actuals: seq<ActualItem>, c: string)
    requires forall b :: b in budget ==> b.category != c
    ensures var rows := RowsFor(BudgetVsActual(budget, actuals), c);
            var acts := ActualFor(actuals, c);
            |rows| == |acts| &&
            forall m :: 0 <= m < |rows| ==>
              rows[m].category == c && rows[m].actual == acts[m].actual &&
              rows[m].date == Text(acts[m].date) &&
              rows[m].budgeted == 0.0 && rows[m].period == Zero && rows[m].variance == -acts[m].actual
  {
    var acts := ActualFor(actuals, c);
    assert forall m :: 0 <= m < |acts| ==> acts[m] in acts;
    NoBudgetLines(budget, c);
    RowsOfCategory(budget, actuals, c);
    BlockActualOnly(budget, actuals, c);
  }

  /** No budget line is lost by the join. */
  lemma BudgetLineKept(budget: seq<BudgetItem>, actuals: seq<ActualItem>, b: BudgetItem)
    requires b in budget
    ensures exists row :: row in BudgetVsActual(budget, actuals) &&
              row.category == b.category && row.budgeted == b.budgeted && row.period == Text(b.period)
  {
    var c := b.category;
    var bs := BudgetFor(budget, c);
    var acts := ActualFor(actuals, c);
    var rows := RowsFor(BudgetVsActual(budget, actuals), c);
    RowsOfCategory(budget, actuals, c);
    assert b in bs;
    var i :| 0 <= i < |bs| && bs[i] == b;
    if acts != [] {
      assert acts[0] in actuals;
      BothSides(budget, actuals, b, acts[0]);
    } else {
      BudgetOnlyCategory(budget, actuals, c);
      assert rows[i] in rows;
    }
  }

  /** No actual line is lost by the join. */
  lemma ActualLineKept(budget: seq<BudgetItem>, actuals: seq<ActualItem>, a: ActualItem)
    requires a in actuals
    ensures exists row :: row in BudgetVsActual(budget, actuals) &&
              row.category == a.category && row.actual == a.actual && row.date == Text(a.date)
  {
    var c := a.category;
    var bs := BudgetFor(budget, c);
    var acts := ActualFor(actuals, c);
    var rows := RowsFor(BudgetVsActual(budget, actuals), c);
    RowsOfCategory(budget, actuals, c);
    assert a in acts;
    var m :| 0 <= m < |acts| && acts[m] == a;
    if bs != [] {
      assert bs[0] in budget;
      BothSides(budget, actuals, bs[0], a);
    } else {
      ActualOnlyCategory(budget, actuals, c);
      assert rows[m] in rows;
    }
  }

  /** The three totals of a merged table. */
  datatype Totals = Totals(budgeted: real, actual: real, variance: real)

  function SumBudgeted(rows: seq<Reconciled>): real
  {
    if rows == [] then 0.0 else rows[0].budgeted + SumBudgeted(rows[1..])
  }

  function SumActual(rows: seq<Reconciled>): real
  {
    if rows == [] then 0.0 else rows[0].actual + SumActual(rows[1..])
  }

  function SumVariance(rows: seq<Reconciled>): real
  {
    if rows == [] then 0.0 else rows[0].variance + SumVariance(rows[1..])
  }

  /** `calculate_total_variance`. */
  function TotalVariance(rows: seq<Reconciled>): (t: Totals)
    ensures t.variance == t.budgeted - t.actual
    ensures rows == [] ==> t == Totals(0.0, 0.0, 0.0)
  {
    var b := SumBudgeted(rows);
    var a := SumActual(rows);
    Totals(b, a, b - a)
  }

  /** On a merged table the total variance is also the sum of the per-row
      variances. */
  lemma {:induction false} TotalIsSumOfVariances(rows: seq<Reconciled>)
    requires forall row :: row in rows ==> row.variance == row.budgeted - row.actual
    ensures TotalVariance(rows).variance == SumVariance(rows)
  {
    if rows != [] {
      assert rows[0] in rows;
      TotalIsSumOfVariances(rows[1..]);
    }
  }

  lemma MergedTotals(budget: seq<BudgetItem>, actuals: seq<ActualItem>)
    ensures TotalVariance(BudgetVsActual(budget, actuals)).variance == SumVariance(BudgetVsActual(budget, actuals))
  {
    TotalIsSumOfVariances(BudgetVsActual(budget, actuals));
  }

  /** One rent budget of 1000 against 950 spent gives one row with variance 50. */
  lemma RentExample()
    ensures BudgetVsActual([BudgetItem("Rent", 1000.0, "Monthly")], [ActualItem("Rent", 950.0, "2024-01-31")])
         == [Reconciled("Rent", 1000.0, Text("Monthly"), 950.0, Text("2024-01-31"), 50.0)]
  {
    var budget := [BudgetItem("Rent", 1000.0, "Monthly")];
    var actuals := [ActualItem("Rent", 950.0, "2024-01-31")];
    var keys := JoinKeys(budget, actuals);
    assert StrictlySorted(Lexicographic, ["Rent"]);
    SortedUnique(Lexicographic, keys, ["Rent"]);
    assert BudgetFor(budget, "Rent") == budget;
    assert ActualFor(actuals, "Rent") == actuals;
    assert Product(budget, actuals) == [Joined(budget[0], actuals[0])];
  }
}
