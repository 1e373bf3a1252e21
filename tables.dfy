/** The income and expenses tables of the dashboard: their rows, how a cell
    becomes an amount, and the three table actions (Clear, Add Row, and the
    variance recomputation that follows an edit). */
module Tables {
  import opened Common

  /** A cell as the data table delivers it. */
  datatype Cell =
    | Missing           // `None`, or a row without that key
    | Num(value: real)  // a number, or a string that spells one
    | Text(s: string)   // a string that does not spell a number; `Text("")` is the blank ''

  const Blank: Cell := Text("")

  /** Which table a row belongs to; it fixes the sign of the variance. */
  datatype TableKind = Income | Expenses

  /** A table row: `Month`, `Source` (income) or `Category` (expenses),
      `Budgeted Amount`, `Actual Amount`, `Variance`. */
  datatype Row = Row(month: string, name: string, budgeted: Cell, actual: Cell, variance: Cell)

  /** `{c['id']: '' for c in columns}`: every column set to ''. */
  const BlankRow: Row := Row("", "", Blank, Blank, Blank)

  /** `float(cell or 0)` in the edit path: a blank or missing cell is 0, a
      number is itself, any other text raises `ValueError` (`None` here). */
  function EditAmount(c: Cell): (r: Option<real>)
    ensures r.None? <==> c.Text? && c.s != ""
  {
    match c
    case Missing => Some(0.0)
    case Num(v) => Some(v)
    case Text(s) => if s == "" then Some(0.0) else None
  }

  /** `pd.to_numeric(col, errors='coerce').fillna(0)` in the chart path:
      it reads every cell the edit path accepts as the edit path does, and
      counts any text as 0 instead of failing. */
  function ChartAmount(c: Cell): (r: real)
    ensures EditAmount(c).Some? ==> r == EditAmount(c).value
    ensures c.Text? ==> r == 0.0
  {
    match c
    case Num(v) => v
    case _ => 0.0
  }

  /** The chart path is the edit path with its failure turned into 0, and
      both read a blank or missing cell as 0. */
  lemma CoercionsAgree(c: Cell)
    ensures ChartAmount(c) == EditAmount(c).GetOr(0.0)
    ensures c.Missing? || c == Blank ==> EditAmount(c) == Some(0.0) && ChartAmount(c) == 0.0
    ensures c.Num? ==> EditAmount(c) == Some(c.value)
  {
  }

  /** Income: actual - budgeted (favourable when more came in).
      Expenses: budgeted - actual (favourable when less went out). A
      variance is positive exactly when the outcome is favourable. */
  function Variance(kind: TableKind, budgeted: real, actual: real): (v: real)
    ensures v > 0.0 <==> (if kind == Income then actual > budgeted else actual < budgeted)
    ensures v == 0.0 <==> actual == budgeted
  {
    match kind
    case Income => actual - budgeted
    case Expenses => budgeted - actual
  }

  /** The same amounts give opposite variances in the two tables. */
  lemma VarianceMirror(budgeted: real, actual: real)
    ensures Variance(Income, budgeted, actual) == -Variance(Expenses, budgeted, actual)
  {
  }

  /** Both amounts of the row survive `float(...)`. */
  predicate Parses(row: Row)
  {
    EditAmount(row.budgeted).Some? && EditAmount(row.actual).Some?
  }

  /** The variance the edit path writes into a row it accepts. */
  function RowVariance(kind: TableKind, row: Row): real
    requires Parses(row)
  {
    Variance(kind, EditAmount(row.budgeted).value, EditAmount(row.actual).value)
  }

  /** `updated` is `rows` with every row copied and only its `Variance` set. */
  predicate Recomputed(kind: TableKind, rows: seq<Row>, updated: seq<Row>)
  {
    |updated| == |rows| &&
    forall i :: 0 <= i < |rows| ==>
      Parses(rows[i]) && updated[i] == rows[i].(variance := Num(RowVariance(kind, rows[i])))
  }

  /** Row `i` is the first one whose amounts do not parse. */
  predicate FirstBadRow(rows: seq<Row>, i: nat)
  {
    i < |rows| && !Parses(rows[i]) && forall j :: 0 <= j < i ==> Parses(rows[j])
  }

  datatype EditError =
    | NonNumeric(row: nat)  // `float()` raised on this row
    | NoRows                // the table had no data to iterate

  /** The loop of `update_income_table` / `update_expenses_table` that runs
      after an edit. */
  method RecomputeVariances(kind: TableKind, rows: seq<Row>) returns (r: Result<seq<Row>, EditError>)
    ensures r.Ok? <==> forall i :: 0 <= i < |rows| ==> Parses(rows[i])
    ensures r.Ok? ==> Recomputed(kind, rows, r.value)
    ensures r.Err? ==> r.error.NonNumeric? && FirstBadRow(rows, r.error.row)
  {
    var updated: seq<Row> := [];
    var i := 0;
    while i < |rows|
      invariant 0 <= i <= |rows|
      invariant Recomputed(kind, rows[..i], updated)
    {
      var row := rows[i];
      var budgeted := EditAmount(row.budgeted);
      if budgeted.None? {
        return Err(NonNumeric(i));
      }
      var actual := EditAmount(row.actual);
      if actual.None? {
        return Err(NonNumeric(i));
      }
      updated := updated + [row.(variance := Num(Variance(kind, budgeted.value, actual.value)))];
      i := i + 1;
    }
    assert rows[..i] == rows;
    return Ok(updated);
  }

  /** Every row's variance is the one its amounts call for. */
  predicate VariancesConsistent(kind: TableKind, rows: seq<Row>)
  {
    forall i :: 0 <= i < |rows| ==> Parses(rows[i]) && rows[i].variance == Num(RowVariance(kind, rows[i]))
  }

  /** A recomputed table is consistent, and recomputing it again changes nothing. */
  lemma RecomputeSettles(kind: TableKind, rows: seq<Row>, updated: seq<Row>)
    requires Recomputed(kind, rows, updated)
    ensures VariancesConsistent(kind, updated)
    ensures Recomputed(kind, updated, updated)
  {
    forall i | 0 <= i < |updated|
      ensures Parses(updated[i]) && updated[i].variance == Num(RowVariance(kind, updated[i]))
    {
      assert updated[i].budgeted == rows[i].budgeted && updated[i].actual == rows[i].actual;
    }
  }

  /** One of the two editable tables, holding its `data` property. */
  class Table {
    const kind: TableKind
    var data: Option<seq<Row>>  // `None` when the table's data is null

    /** The table as the layout creates it: one blank row. */
    constructor (kind: TableKind)
      ensures this.kind == kind && data == Some([BlankRow])
    {
      this.kind := kind;
      data := Some([BlankRow]);
    }

    /** Clear Data: the table becomes empty. */
    method Clear()
      modifies this
      ensures data == Some([])
    {
      data := Some([]);
    }

    /** Add Row: keeps the existing rows (a null table counts as empty) and
        appends exactly one blank row. */
    method AddRow()
      modifies this
      ensures data == Some(old(data).GetOr([]) + [BlankRow])
    {
      var rows := if data.Some? then data.value else [];
      data := Some(rows + [BlankRow]);
    }

    /** An edit: every variance is recomputed. When the loop raises, the
        callback fails and the table keeps its data. */
    method Edit() returns (failure: Option<EditError>)
      modifies this
      ensures old(data).None? ==> failure == Some(NoRows) && data == old(data)
      ensures old(data).Some? && failure.None? ==>
                data.Some? && Recomputed(kind, old(data).value, data.value) &&
                VariancesConsistent(kind, data.value)
      ensures old(data).Some? && failure.Some? ==>
                data == old(data) && failure.value.NonNumeric? && FirstBadRow(data.value, failure.value.row)
      ensures old(data).Some? ==> (failure.None? <==> forall i :: 0 <= i < |old(data).value| ==> Parses(old(data).value[i]))
    {
      if data.None? {
        return Some(NoRows);
      }
      var r := RecomputeVariances(kind, data.value);
      match r
      case Ok(updated) =>
        RecomputeSettles(kind, data.value, updated);
        data := Some(updated);
        failure := None;
      case Err(e) =>
        failure := Some(e);
    }
  }
}
