/** Loading salary records: the rows of `salary_records` and `salary_expenses` are joined
    into `SalaryRecord` values. The dashboard and the employee detail page perform the
    same join: expenses are grouped by `salary_record_id` in fetch order, then attached to
    the records. */
module RecordJoin {
  import opened Base
  import opened Types

  /** A fetched row of the `salary_expenses` table. */
  datatype ExpenseRow = ExpenseRow(
    id: string,
    salaryRecordId: string,
    category: string,
    amount: int,
    expenseDate: Option<string>)

  /** A fetched row of the `salary_records` table. */
  datatype RecordRow = RecordRow(
    id: string,
    employeeId: string,
    year: int,
    month: int,
    baseSalary: Option<int>,
    totalExpenses: int,
    grandTotal: int)

  /** The expense an expense row becomes: `date: row.expense_date ?? ""`. */
  function ExpenseOfRow(row: ExpenseRow): (e: SalaryExpense)
    ensures e.id == row.id && e.category == row.category && e.amount == row.amount
    ensures row.expenseDate.None? ==> e.date == ""
    ensures row.expenseDate.Some? ==> e.date == row.expenseDate.value
  {
    SalaryExpense(row.id, row.category, row.amount, row.expenseDate.GetOr(""))
  }

  /** The expenses of the rows that belong to record `recId`, in fetch order. */
  function ExpensesFor(rows: seq<ExpenseRow>, recId: string): seq<SalaryExpense> {
    if rows == [] then []
    else
      var last := rows[|rows| - 1];
      ExpensesFor(rows[..|rows| - 1], recId) + (if last.salaryRecordId == recId then [ExpenseOfRow(last)] else [])
  }

  /** `expensesByRecord[id] ?? []`. */
  function Lookup(byRecord: map<string, seq<SalaryExpense>>, recId: string): seq<SalaryExpense> {
    if recId in byRecord then byRecord[recId] else []
  }

  /** The `forEach` that builds `expensesByRecord`: each row's expense is pushed onto the
      list of its record, the list being created on the record's first row. */
  method GroupByRecord(rows: seq<ExpenseRow>) returns (byRecord: map<string, seq<SalaryExpense>>)
    ensures forall recId :: Lookup(byRecord, recId) == ExpensesFor(rows, recId)
    ensures forall recId :: recId in byRecord ==> byRecord[recId] != []
  {
    byRecord := map[];
    for i := 0 to |rows|
      invariant forall recId :: Lookup(byRecord, recId) == ExpensesFor(rows[..i], recId)
      invariant forall recId :: recId in byRecord ==> byRecord[recId] != []
    {
      var row := rows[i];
      assert rows[..i + 1][..i] == rows[..i];
      assert rows[..i + 1][i] == row;
      var list := if row.salaryRecordId in byRecord then byRecord[row.salaryRecordId] else [];
      byRecord := byRecord[row.salaryRecordId := list + [ExpenseOfRow(row)]];
    }
    assert rows[..|rows|] == rows;
  }

  /** A record row with its expenses attached; the loaded record carries no `date`. */
  function RecordOfRow(row: RecordRow, expenses: seq<SalaryExpense>): (r: SalaryRecord)
    ensures r.id == row.id && r.employeeId == row.employeeId
    ensures r.year == row.year && r.month == row.month && r.baseSalary == row.baseSalary
    ensures r.totalExpenses == row.totalExpenses && r.grandTotal == row.grandTotal
    ensures r.expenses == expenses && r.date.None?
  {
    SalaryRecord(row.id, row.employeeId, row.year, row.month, row.baseSalary, expenses,
                 row.totalExpenses, row.grandTotal, None)
  }

  /** `recordRows.map(row => ({ ..., expenses: expensesByRecord[row.id] ?? [] }))`. */
  function AttachExpenses(rows: seq<RecordRow>, byRecord: map<string, seq<SalaryExpense>>): (rs: seq<SalaryRecord>)
    ensures |rs| == |rows|
    ensures forall i :: 0 <= i < |rows| ==> rs[i] == RecordOfRow(rows[i], Lookup(byRecord, rows[i].id))
  {
    seq(|rows|, i requires 0 <= i < |rows| => RecordOfRow(rows[i], Lookup(byRecord, rows[i].id)))
  }

  /** What the join should give: one record per record row, in order, each carrying
      exactly the expenses whose `salary_record_id` is its id, in fetch order. */
  function Joined(recordRows: seq<RecordRow>, expenseRows: seq<ExpenseRow>): (rs: seq<SalaryRecord>)
    ensures |rs| == |recordRows|
    ensures forall i :: 0 <= i < |recordRows| ==>
      rs[i] == RecordOfRow(recordRows[i], ExpensesFor(expenseRows, recordRows[i].id))
  {
    seq(|recordRows|, i requires 0 <= i < |recordRows| =>
      RecordOfRow(recordRows[i], ExpensesFor(expenseRows, recordRows[i].id)))
  }

  /** The grouping followed by the `map` over the record rows computes `Joined`. */
  method JoinRecords(recordRows: seq<RecordRow>, expenseRows: seq<ExpenseRow>) returns (rs: seq<SalaryRecord>)
    ensures rs == Joined(recordRows, expenseRows)
  {
    var byRecord := GroupByRecord(expenseRows);
    rs := AttachExpenses(recordRows, byRecord);
  }

  /** The number of rows that belong to record `recId`. */
  function CountFor(rows: seq<ExpenseRow>, recId: string): nat {
    if rows == [] then 0
    else CountFor(rows[..|rows| - 1], recId) + (if rows[|rows| - 1].salaryRecordId == recId then 1 else 0)
  }

  /** A record gets one expense per row that names it, and only expenses from such rows. */
  lemma {:induction false} ExpensesForExact(rows: seq<ExpenseRow>, recId: string)
    ensures |ExpensesFor(rows, recId)| == CountFor(rows, recId)
    ensures forall e :: e in ExpensesFor(rows, recId) <==>
      exists i :: 0 <= i < |rows| && rows[i].salaryRecordId == recId && e == ExpenseOfRow(rows[i])
  {
    if |rows| > 0 {
      var init, last := rows[..|rows| - 1], rows[|rows| - 1];
      ExpensesForExact(init, recId);
      var tail := if last.salaryRecordId == recId then [ExpenseOfRow(last)] else [];
      assert ExpensesFor(rows, recId) == ExpensesFor(init, recId) + tail;
      forall e
        ensures e in ExpensesFor(rows, recId) <==>
          exists i :: 0 <= i < |rows| && rows[i].salaryRecordId == recId && e == ExpenseOfRow(rows[i])
      {
        if e in ExpensesFor(rows, recId) {
          assert e in ExpensesFor(init, recId) || e in tail;
          if e in ExpensesFor(init, recId) {
            var i :| 0 <= i < |init| && init[i].salaryRecordId == recId && e == ExpenseOfRow(init[i]);
            assert rows[i] == init[i];
          } else {
            assert rows[|rows| - 1] == last;
          }
        }
        if exists i :: 0 <= i < |rows| && rows[i].salaryRecordId == recId && e == ExpenseOfRow(rows[i]) {
          var i :| 0 <= i < |rows| && rows[i].salaryRecordId == recId && e == ExpenseOfRow(rows[i]);
          if i < |init| {
            assert init[i] == rows[i];
          }
        }
      }
    }
  }

  /** A record that no expense row names gets an empty list. */
  lemma {:induction false} ExpensesForNone(rows: seq<ExpenseRow>, recId: string)
    requires forall i :: 0 <= i < |rows| ==> rows[i].salaryRecordId != recId
    ensures ExpensesFor(rows, recId) == []
  {
    if rows != [] {
      ExpensesForNone(rows[..|rows| - 1], recId);
    }
  }
}
