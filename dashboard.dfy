/** The dashboard: the figures it derives from the loaded records (the `useMemo` block),
    and the local-state updates its handlers make once the data store has answered. */
module Dashboard {
  import opened Base
  import opened Types
  import Lists
  import MonthLabels
  import RecordJoin

  // ---------------------------------------------------------------------------------
  // What the aggregation computes, record by record.

  /** Σ (baseSalary ?? 0) over the records of year `y`. */
  function YearSalary(rs: seq<SalaryRecord>, y: int): int {
    if rs == [] then 0
    else
      var last := rs[|rs| - 1];
      YearSalary(rs[..|rs| - 1], y) + (if last.year == y then SalaryOrZero(last.baseSalary) else 0)
  }

  /** Σ totalExpenses over the records of year `y`. */
  function YearExpenses(rs: seq<SalaryRecord>, y: int): int {
    if rs == [] then 0
    else
      var last := rs[|rs| - 1];
      YearExpenses(rs[..|rs| - 1], y) + (if last.year == y then last.totalExpenses else 0)
  }

  /** Σ grandTotal over the records of year `y`. */
  function YearGrandTotal(rs: seq<SalaryRecord>, y: int): int {
    if rs == [] then 0
    else
      var last := rs[|rs| - 1];
      YearGrandTotal(rs[..|rs| - 1], y) + (if last.year == y then last.grandTotal else 0)
  }

  /** Σ grandTotal over the records of one period. */
  function MonthTotal(rs: seq<SalaryRecord>, k: YearMonth): int {
    if rs == [] then 0
    else
      var last := rs[|rs| - 1];
      MonthTotal(rs[..|rs| - 1], k) + (if last.year == k.year && last.month == k.month then last.grandTotal else 0)
  }

  /** Σ grandTotal over one employee's records, all years together. */
  function EmployeeTotal(rs: seq<SalaryRecord>, id: string): int {
    if rs == [] then 0
    else
      var last := rs[|rs| - 1];
      EmployeeTotal(rs[..|rs| - 1], id) + (if last.employeeId == id then last.grandTotal else 0)
  }

  /** `totals[key] ?? 0`. */
  function MapGet<K>(m: map<K, int>, k: K): int {
    if k in m then m[k] else 0
  }

  /** The `for (const rec of records)` loop: the current year's salary and expense totals,
      the current year's totals per month, and every employee's lifetime total. */
  method Aggregate(records: seq<SalaryRecord>, currentYear: int)
    returns (salaryYear: int, expensesYear: int, monthlyTotals: map<YearMonth, int>, perEmployee: map<string, int>)
    ensures salaryYear == YearSalary(records, currentYear)
    ensures expensesYear == YearExpenses(records, currentYear)
    ensures forall k :: k in monthlyTotals ==> k.year == currentYear
    ensures forall k: YearMonth :: k.year == currentYear ==> MapGet(monthlyTotals, k) == MonthTotal(records, k)
    ensures forall id :: MapGet(perEmployee, id) == EmployeeTotal(records, id)
  {
    salaryYear, expensesYear := 0, 0;
    monthlyTotals, perEmployee := map[], map[];
    for i := 0 to |records|
      invariant salaryYear == YearSalary(records[..i], currentYear)
      invariant expensesYear == YearExpenses(records[..i], currentYear)
      invariant forall k :: k in monthlyTotals ==> k.year == currentYear
      invariant forall k: YearMonth :: k.year == currentYear ==> MapGet(monthlyTotals, k) == MonthTotal(records[..i], k)
      invariant forall id :: MapGet(perEmployee, id) == EmployeeTotal(records[..i], id)
    {
      var rec := records[i];
      assert records[..i + 1][..i] == records[..i];
      assert records[..i + 1][i] == rec;
      if rec.year == currentYear {
        salaryYear := salaryYear + SalaryOrZero(rec.baseSalary);
        expensesYear := expensesYear + rec.totalExpenses;
        var key := YearMonth(rec.year, rec.month);
        monthlyTotals := monthlyTotals[key := MapGet(monthlyTotals, key) + rec.grandTotal];
      }
      perEmployee := perEmployee[rec.employeeId := MapGet(perEmployee, rec.employeeId) + rec.grandTotal];
    }
    assert records[..|records|] == records;
  }

  /** Records of other years do not count towards a year's figures. */
  lemma {:induction false} OtherYearsIgnored(rs: seq<SalaryRecord>, r: SalaryRecord, y: int)
    requires r.year != y
    ensures YearSalary(rs + [r], y) == YearSalary(rs, y)
    ensures YearExpenses(rs + [r], y) == YearExpenses(rs, y)
    ensures YearGrandTotal(rs + [r], y) == YearGrandTotal(rs, y)
    ensures forall k: YearMonth :: k.year == y ==> MonthTotal(rs + [r], k) == MonthTotal(rs, k)
  {
    assert (rs + [r])[..|rs + [r]| - 1] == rs;
  }

  /** For consistent records, the year's salary and expense totals add up to the year's
      grand total. */
  lemma {:induction false} YearTotalsSplit(rs: seq<SalaryRecord>, y: int)
    requires forall i :: 0 <= i < |rs| ==> TotalsConsistent(rs[i])
    ensures YearSalary(rs, y) + YearExpenses(rs, y) == YearGrandTotal(rs, y)
  {
    if rs != [] {
      YearTotalsSplit(rs[..|rs| - 1], y);
    }
  }

  /** An employee's total is lifetime: over records that are all theirs it is Σ grandTotal,
      whatever the years. */
  lemma {:induction false} EmployeeTotalsOfOne(rs: seq<SalaryRecord>, id: string)
    requires forall i :: 0 <= i < |rs| ==> rs[i].employeeId == id
    ensures EmployeeTotal(rs, id) == SumGrandTotals(rs)
  {
    if rs != [] {
      EmployeeTotalsOfOne(rs[..|rs| - 1], id);
    }
  }

  /** A month without records has total 0. */
  lemma {:induction false} MonthTotalEmpty(rs: seq<SalaryRecord>, k: YearMonth)
    requires forall i :: 0 <= i < |rs| ==> !(rs[i].year == k.year && rs[i].month == k.month)
    ensures MonthTotal(rs, k) == 0
  {
    if rs != [] {
      MonthTotalEmpty(rs[..|rs| - 1], k);
    }
  }

  // ---------------------------------------------------------------------------------
  // The monthly chart.

  /** One bar of the chart. */
  datatype ChartPoint = ChartPoint(monthLabel: string, total: int)

  /** The bars for months 1..n of `currentYear`. */
  function Chart(monthlyTotals: map<YearMonth, int>, currentYear: int, n: nat): (c: seq<ChartPoint>)
    requires n <= 12
    ensures |c| == n
  {
    if n == 0 then []
    else Chart(monthlyTotals, currentYear, n - 1)
         + [ChartPoint(MonthLabels.MonthNames[n - 1], MapGet(monthlyTotals, YearMonth(currentYear, n)))]
  }

  /** `monthlyChartData`: `Array.from({ length: 12 }, ...)`. */
  function MonthlyChart(monthlyTotals: map<YearMonth, int>, currentYear: int): seq<ChartPoint> {
    Chart(monthlyTotals, currentYear, 12)
  }

  /** Bar i of `Chart(.., n)` is month i + 1, labelled by its name. */
  lemma {:induction false} ChartPoints(m: map<YearMonth, int>, y: int, n: nat)
    requires n <= 12
    ensures forall i :: 0 <= i < n ==>
      Chart(m, y, n)[i] == ChartPoint(MonthLabels.MonthNames[i], MapGet(m, YearMonth(y, i + 1)))
  {
    if n > 0 {
      ChartPoints(m, y, n - 1);
      var c := Chart(m, y, n);
      var last := ChartPoint(MonthLabels.MonthNames[n - 1], MapGet(m, YearMonth(y, n)));
      assert c == Chart(m, y, n - 1) + [last];
      forall i | 0 <= i < n
        ensures c[i] == ChartPoint(MonthLabels.MonthNames[i], MapGet(m, YearMonth(y, i + 1)))
      {
        if i < n - 1 {
          assert c[i] == Chart(m, y, n - 1)[i];
        }
      }
    }
  }

  /** The chart has exactly twelve bars, labelled Jan..Dec, each the month's total of the
      current year, and 0 for a month without records. */
  lemma MonthlyChartShape(records: seq<SalaryRecord>, m: map<YearMonth, int>, y: int)
    requires forall k: YearMonth :: k.year == y ==> MapGet(m, k) == MonthTotal(records, k)
    ensures |MonthlyChart(m, y)| == 12
    ensures forall i :: 0 <= i < 12 ==> MonthlyChart(m, y)[i].monthLabel == MonthLabels.MonthNames[i]
    ensures forall i :: 0 <= i < 12 ==> MonthlyChart(m, y)[i].total == MonthTotal(records, YearMonth(y, i + 1))
  {
    ChartPoints(m, y, 12);
  }

  /** Σ of the bars. */
  function ChartSum(c: seq<ChartPoint>): int {
    if c == [] then 0 else ChartSum(c[..|c| - 1]) + c[|c| - 1].total
  }

  /** Σ over months 1..n of the month totals of year `y`. */
  function MonthsSum(rs: seq<SalaryRecord>, y: int, n: nat): int {
    if n == 0 then 0 else MonthsSum(rs, y, n - 1) + MonthTotal(rs, YearMonth(y, n))
  }

  lemma {:induction false} ChartSumIsMonthsSum(records: seq<SalaryRecord>, m: map<YearMonth, int>, y: int, n: nat)
    requires n <= 12
    requires forall k: YearMonth :: k.year == y ==> MapGet(m, k) == MonthTotal(records, k)
    ensures ChartSum(Chart(m, y, n)) == MonthsSum(records, y, n)
  {
    if n > 0 {
      ChartSumIsMonthsSum(records, m, y, n - 1);
      var prev := Chart(m, y, n - 1);
      var bar := ChartPoint(MonthLabels.MonthNames[n - 1], MapGet(m, YearMonth(y, n)));
      var c := Chart(m, y, n);
      assert c == prev + [bar];
      assert c[..n - 1] == prev;
      assert bar.total == MonthTotal(records, YearMonth(y, n));
    }
  }

  /** Adding one record to the list adds its grand total to exactly the month it is in. */
  lemma {:induction false} MonthsSumStep(rs: seq<SalaryRecord>, y: int, n: nat)
    requires rs != []
    ensures var last := rs[|rs| - 1];
      MonthsSum(rs, y, n) == MonthsSum(rs[..|rs| - 1], y, n)
        + (if last.year == y && 1 <= last.month <= n then last.grandTotal else 0)
  {
    if n > 0 {
      MonthsSumStep(rs, y, n - 1);
    }
  }

  lemma {:induction false} MonthsSumOfNone(y: int, n: nat)
    ensures MonthsSum([], y, n) == 0
  {
    if n > 0 {
      MonthsSumOfNone(y, n - 1);
    }
  }

  lemma {:induction false} MonthsSumIsYearTotal(rs: seq<SalaryRecord>, y: int)
    requires forall i :: 0 <= i < |rs| && rs[i].year == y ==> MonthInRange(rs[i])
    ensures MonthsSum(rs, y, 12) == YearGrandTotal(rs, y)
  {
    if rs == [] {
      MonthsSumOfNone(y, 12);
    } else {
      var init, last := rs[..|rs| - 1], rs[|rs| - 1];
      assert forall i :: 0 <= i < |init| ==> init[i] == rs[i];
      MonthsSumIsYearTotal(init, y);
      MonthsSumStep(rs, y, 12);
      assert last.year == y ==> MonthInRange(last);
    }
  }

  /** When every current-year record has a calendar month, the bars add up to the year's
      grand total: no record is lost and none is counted twice. */
  lemma ChartSumIsYearTotal(records: seq<SalaryRecord>, m: map<YearMonth, int>, y: int)
    requires forall k: YearMonth :: k.year == y ==> MapGet(m, k) == MonthTotal(records, k)
    requires forall i :: 0 <= i < |records| && records[i].year == y ==> MonthInRange(records[i])
    ensures ChartSum(MonthlyChart(m, y)) == YearGrandTotal(records, y)
  {
    ChartSumIsMonthsSum(records, m, y, 12);
    MonthsSumIsYearTotal(records, y);
  }

  // ---------------------------------------------------------------------------------
  // Employee totals and the top-3 ranking.

  /** One entry of `employeeTotals`. */
  datatype EmployeeTotalRow = EmployeeTotalRow(id: string, name: string, role: Option<string>, total: int)

  /** `employees.map(e => ({ ..., total: perEmployeeTotals[e.id] ?? 0 }))`. */
  function EmployeeTotals(employees: seq<Employee>, perEmployee: map<string, int>): (rows: seq<EmployeeTotalRow>)
    ensures |rows| == |employees|
    ensures forall i :: 0 <= i < |employees| ==>
      rows[i] == EmployeeTotalRow(employees[i].id, employees[i].name, employees[i].role,
                                  MapGet(perEmployee, employees[i].id))
  {
    seq(|employees|, i requires 0 <= i < |employees| =>
      EmployeeTotalRow(employees[i].id, employees[i].name, employees[i].role, MapGet(perEmployee, employees[i].id)))
  }

  /** `.filter(e => e.total > 0)`. */
  function Positive(rows: seq<EmployeeTotalRow>): seq<EmployeeTotalRow> {
    if rows == [] then []
    else
      var last := rows[|rows| - 1];
      Positive(rows[..|rows| - 1]) + (if last.total > 0 then [last] else [])
  }

  /** The rows with a given total, in order. */
  function WithTotal(rows: seq<EmployeeTotalRow>, t: int): seq<EmployeeTotalRow> {
    if rows == [] then []
    else
      var last := rows[|rows| - 1];
      WithTotal(rows[..|rows| - 1], t) + (if last.total == t then [last] else [])
  }

  predicate SortedDesc(s: seq<EmployeeTotalRow>) {
    forall i, j :: 0 <= i < j < |s| ==> s[i].total >= s[j].total
  }

  /** Inserts `x` into a non-increasing list after every row whose total is at least its own. */
  function Insert(x: EmployeeTotalRow, s: seq<EmployeeTotalRow>): seq<EmployeeTotalRow> {
    if s == [] then [x]
    else if s[0].total < x.total then [x] + s
    else [s[0]] + Insert(x, s[1..])
  }

  /** `.sort((a, b) => b.total - a.total)`: a stable sort by total, largest first. */
  function SortDesc(s: seq<EmployeeTotalRow>): seq<EmployeeTotalRow> {
    if s == [] then [] else Insert(s[|s| - 1], SortDesc(s[..|s| - 1]))
  }

  /** `.slice(0, 3)`. */
  function Take3(s: seq<EmployeeTotalRow>): seq<EmployeeTotalRow> {
    if |s| <= 3 then s else s[..3]
  }

  /** `topEmployees`: `.filter(...).sort(...).slice(0, 3)`. */
  function TopEmployees(rows: seq<EmployeeTotalRow>): seq<EmployeeTotalRow> {
    Take3(SortDesc(Positive(rows)))
  }

  /** The filter keeps every row with a positive total, as often as it occurs, and no other. */
  lemma {:induction false} PositiveRows(rows: seq<EmployeeTotalRow>)
    ensures forall x :: multiset(Positive(rows))[x] == if x.total > 0 then multiset(rows)[x] else 0
  {
    if rows != [] {
      var init, last := rows[..|rows| - 1], rows[|rows| - 1];
      PositiveRows(init);
      assert rows == init + [last];
    }
  }

  lemma {:induction false} WithTotalConcat(a: seq<EmployeeTotalRow>, b: seq<EmployeeTotalRow>, t: int)
    ensures WithTotal(a + b, t) == WithTotal(a, t) + WithTotal(b, t)
  {
    if b == [] {
      assert a + b == a;
    } else {
      assert (a + b)[..|a + b| - 1] == a + b[..|b| - 1];
      WithTotalConcat(a, b[..|b| - 1], t);
    }
  }

  lemma {:induction false} WithTotalNone(s: seq<EmployeeTotalRow>, t: int)
    requires forall i :: 0 <= i < |s| ==> s[i].total != t
    ensures WithTotal(s, t) == []
  {
    if s != [] {
      WithTotalNone(s[..|s| - 1], t);
    }
  }

  lemma {:induction false} InsertPermutes(x: EmployeeTotalRow, s: seq<EmployeeTotalRow>)
    ensures multiset(Insert(x, s)) == multiset(s) + multiset{x}
  {
    if s != [] && s[0].total >= x.total {
      InsertPermutes(x, s[1..]);
      assert s == [s[0]] + s[1..];
    }
  }

  lemma {:induction false} InsertSorted(x: EmployeeTotalRow, s: seq<EmployeeTotalRow>)
    requires SortedDesc(s)
    ensures SortedDesc(Insert(x, s))
  {
    if s != [] && s[0].total >= x.total {
      var rest := Insert(x, s[1..]);
      InsertSorted(x, s[1..]);
      InsertPermutes(x, s[1..]);
      forall j | 0 <= j < |rest|
        ensures s[0].total >= rest[j].total
      {
        assert rest[j] in multiset(s[1..]) + multiset{x};
        if rest[j] != x {
          assert rest[j] in s[1..];
        }
      }
      assert Insert(x, s) == [s[0]] + rest;
    }
  }

  /** A single row is kept exactly when it has the total. */
  lemma WithTotalSingle(x: EmployeeTotalRow, t: int)
    ensures WithTotal([x], t) == if x.total == t then [x] else []
  {
    assert [x][..0] == [];
  }

  /** Inserting keeps rows of equal total in the order they were inserted. */
  lemma {:induction false} InsertStable(x: EmployeeTotalRow, s: seq<EmployeeTotalRow>, t: int)
    requires SortedDesc(s)
    ensures WithTotal(Insert(x, s), t) == WithTotal(s, t) + (if x.total == t then [x] else [])
  {
    var extra := if x.total == t then [x] else [];
    WithTotalSingle(x, t);
    if |s| == 0 {
      assert Insert(x, s) == [x];
      assert WithTotal(s, t) == [];
    } else if s[0].total < x.total {
      assert Insert(x, s) == [x] + s;
      WithTotalConcat([x], s, t);
      if x.total == t {
        WithTotalNone(s, t);
      }
    } else {
      var rest := s[1..];
      assert Insert(x, s) == [s[0]] + Insert(x, rest);
      assert SortedDesc(rest);
      InsertStable(x, rest, t);
      WithTotalConcat([s[0]], Insert(x, rest), t);
      WithTotalConcat([s[0]], rest, t);
      assert [s[0]] + rest == s;
      var w0 := WithTotal([s[0]], t);
      assert WithTotal(Insert(x, s), t) == w0 + (WithTotal(rest, t) + extra);
      assert w0 + (WithTotal(rest, t) + extra) == (w0 + WithTotal(rest, t)) + extra;
    }
  }

  /** The sort orders by total, largest first, is a permutation, and is stable: the rows
      of each total keep their original order. */
  lemma {:induction false} SortDescCorrect(s: seq<EmployeeTotalRow>)
    ensures SortedDesc(SortDesc(s))
    ensures multiset(SortDesc(s)) == multiset(s)
    ensures forall t :: WithTotal(SortDesc(s), t) == WithTotal(s, t)
  {
    if s != [] {
      var init, last := s[..|s| - 1], s[|s| - 1];
      SortDescCorrect(init);
      InsertSorted(last, SortDesc(init));
      InsertPermutes(last, SortDesc(init));
      assert s == init + [last];
      forall t
        ensures WithTotal(SortDesc(s), t) == WithTotal(s, t)
      {
        InsertStable(last, SortDesc(init), t);
      }
    }
  }

  /** The sorted positive rows: all positive, largest first, the same rows as the filter. */
  lemma SortedPositive(rows: seq<EmployeeTotalRow>)
    ensures var s := SortDesc(Positive(rows));
      && SortedDesc(s)
      && multiset(s) == multiset(Positive(rows))
      && (forall i :: 0 <= i < |s| ==> s[i].total > 0)
  {
    var p := Positive(rows);
    var s := SortDesc(p);
    SortDescCorrect(p);
    PositiveRows(rows);
    forall i | 0 <= i < |s|
      ensures s[i].total > 0
    {
      assert s[i] in multiset(p);
    }
  }

  /** The first three of a list sorted largest first. */
  lemma {:induction false} Take3OfSorted(s: seq<EmployeeTotalRow>)
    requires SortedDesc(s)
    ensures var top := Take3(s);
      && |top| <= 3
      && |top| == (if |s| < 3 then |s| else 3)
      && top == s[..|top|]
      && SortedDesc(top)
      && (forall j :: |top| <= j < |s| ==> s[j].total <= top[|top| - 1].total)
  {
  }

  /** The ranking: at most three rows, each with a positive total, largest first, taken
      from the front of the stable sort of the positive rows, so that every positive row
      left out has a total no larger than the last one shown. */
  lemma TopEmployeesCorrect(rows: seq<EmployeeTotalRow>)
    ensures var s := SortDesc(Positive(rows));
      var top := TopEmployees(rows);
      && |top| <= 3
      && (forall i :: 0 <= i < |top| ==> top[i].total > 0)
      && SortedDesc(top)
      && top == s[..|top|]
      && (forall j :: |top| <= j < |s| ==> s[j].total <= top[|top| - 1].total)
  {
    SortedPositive(rows);
    Take3OfSorted(SortDesc(Positive(rows)));
  }

  /** A positive row is never dropped from a ranking shorter than three. */
  lemma TopEmployeesComplete(rows: seq<EmployeeTotalRow>, x: EmployeeTotalRow)
    requires x in rows && x.total > 0
    requires |TopEmployees(rows)| < 3
    ensures x in TopEmployees(rows)
  {
    PositiveRows(rows);
    SortedPositive(rows);
    assert x in multiset(SortDesc(Positive(rows)));
  }

  // ---------------------------------------------------------------------------------
  // Handlers: what changes in the local lists after each remote call.

  /** The dashboard's state: the signed-in user and the loaded lists. */
  class DashboardState {
    var userId: Option<string>
    var employees: seq<Employee>
    var records: seq<SalaryRecord>

    constructor (userId: Option<string>)
      ensures this.userId == userId && employees == [] && records == []
    {
      this.userId := userId;
      employees := [];
      records := [];
    }

    /** Every record refers to an employee in the list. */
    predicate RecordsReferToEmployees()
      reads this
    {
      RefersToEmployees(employees, records)
    }

    /** Employees load: on success the list is replaced by the rows, in query order. */
    method LoadEmployees(fetch: Fetch<Employee>)
      modifies this
      ensures userId == old(userId) && records == old(records)
      ensures !SignedIn(old(userId)) || fetch.FetchError? ==> employees == old(employees)
      ensures SignedIn(old(userId)) && fetch.Rows? ==> employees == fetch.rows
    {
      if !SignedIn(userId) || fetch.FetchError? {
        return;
      }
      employees := fetch.rows;
    }

    /** `handleAddEmployee`: without a user or on an insert error nothing changes;
        otherwise the stored employee is appended once, at the end. */
    method AddEmployee(e: Employee, insert: Outcome)
      modifies this
      ensures userId == old(userId) && records == old(records)
      ensures !SignedIn(old(userId)) || insert.Failed? ==> employees == old(employees)
      ensures SignedIn(old(userId)) && insert.Ok? ==> employees == old(employees) + [e]
    {
      if !SignedIn(userId) || insert.Failed? {
        return;
      }
      employees := employees + [e];
    }

    /** `handleSaveEmployee`: on success the employee with that id is replaced. */
    method SaveEmployee(u: Employee, update: Outcome)
      modifies this
      ensures userId == old(userId) && records == old(records)
      ensures update.Failed? ==> employees == old(employees)
      ensures update.Ok? ==> employees == Lists.ReplaceById(old(employees), u, EmployeeId)
    {
      if update.Failed? {
        return;
      }
      employees := Lists.ReplaceById(employees, u, EmployeeId);
    }

    /** `handleConfirmDelete`: on success the employee and all of its records go. */
    method ConfirmDelete(id: string, delete: Outcome)
      modifies this
      ensures userId == old(userId)
      ensures delete.Failed? ==> employees == old(employees) && records == old(records)
      ensures delete.Ok? ==>
        && employees == Lists.RemoveByKey(old(employees), id, EmployeeId)
        && records == Lists.RemoveByKey(old(records), id, RecordEmployeeId)
      ensures old(RecordsReferToEmployees()) ==> RecordsReferToEmployees()
    {
      if delete.Failed? {
        return;
      }
      if RecordsReferToEmployees() {
        CascadeKeepsReferences(employees, records, id);
      }
      employees := Lists.RemoveByKey(employees, id, EmployeeId);
      records := Lists.RemoveByKey(records, id, RecordEmployeeId);
    }

    /** `handleAddRecord`: without a user or when the record insert fails nothing changes;
        otherwise the record is appended once, at the end, even if inserting its expenses
        fails. */
    method AddRecord(r: SalaryRecord, recordInsert: Outcome, expensesInsert: Outcome)
      modifies this
      ensures userId == old(userId) && employees == old(employees)
      ensures !SignedIn(old(userId)) || recordInsert.Failed? ==> records == old(records)
      ensures SignedIn(old(userId)) && recordInsert.Ok? ==> records == old(records) + [r]
    {
      if !SignedIn(userId) || recordInsert.Failed? {
        return;
      }
      records := records + [r];
    }

    /** `handleSaveRecord`: the record update, the deletion of its old expenses and, when
        it has expenses, the insertion of the new ones must all succeed; then the record
        with that id is replaced. Any failure, or no user, leaves the list as it was. */
    method SaveRecord(u: SalaryRecord, update: Outcome, deleteExpenses: Outcome, insertExpenses: Outcome)
      modifies this
      ensures userId == old(userId) && employees == old(employees)
      ensures SaveSucceeds(old(userId), u, update, deleteExpenses, insertExpenses) ==>
        records == Lists.ReplaceById(old(records), u, RecordId)
      ensures !SaveSucceeds(old(userId), u, update, deleteExpenses, insertExpenses) ==>
        records == old(records)
    {
      if !SignedIn(userId) || update.Failed? || deleteExpenses.Failed? {
        return;
      }
      if |u.expenses| > 0 && insertExpenses.Failed? {
        return;
      }
      records := Lists.ReplaceById(records, u, RecordId);
    }

    /** `handleConfirmDeleteRecord`: the expenses and then the record are deleted; if both
        succeed the record leaves the list. */
    method ConfirmDeleteRecord(id: string, deleteExpenses: Outcome, deleteRecord: Outcome)
      modifies this
      ensures userId == old(userId) && employees == old(employees)
      ensures SignedIn(old(userId)) && deleteExpenses.Ok? && deleteRecord.Ok? ==>
        records == Lists.RemoveByKey(old(records), id, RecordId)
      ensures !SignedIn(old(userId)) || deleteExpenses.Failed? || deleteRecord.Failed? ==>
        records == old(records)
    {
      if !SignedIn(userId) || deleteExpenses.Failed? || deleteRecord.Failed? {
        return;
      }
      records := Lists.RemoveByKey(records, id, RecordId);
    }

    /** `loadRecords`: both queries must succeed; the records are then the join of the
        record rows with the expense rows. */
    method LoadRecords(recordFetch: Fetch<RecordJoin.RecordRow>, expenseFetch: Fetch<RecordJoin.ExpenseRow>)
      modifies this
      ensures userId == old(userId) && employees == old(employees)
      ensures SignedIn(old(userId)) && recordFetch.Rows? && expenseFetch.Rows? ==>
        records == RecordJoin.Joined(recordFetch.rows, expenseFetch.rows)
      ensures !SignedIn(old(userId)) || recordFetch.FetchError? || expenseFetch.FetchError? ==>
        records == old(records)
    {
      if !SignedIn(userId) || recordFetch.FetchError? || expenseFetch.FetchError? {
        return;
      }
      records := RecordJoin.JoinRecords(recordFetch.rows, expenseFetch.rows);
    }
  }

  /** Every record refers to an employee of the list. */
  predicate RefersToEmployees(employees: seq<Employee>, records: seq<SalaryRecord>) {
    forall i :: 0 <= i < |records| ==>
      exists j :: 0 <= j < |employees| && employees[j].id == records[i].employeeId
  }

  /** Whether every step of a record save succeeds. */
  predicate SaveSucceeds(userId: Option<string>, u: SalaryRecord, update: Outcome,
                         deleteExpenses: Outcome, insertExpenses: Outcome) {
    SignedIn(userId) && update.Ok? && deleteExpenses.Ok? && (|u.expenses| == 0 || insertExpenses.Ok?)
  }

  /** Deleting an employee together with its records keeps every remaining record
      pointing at a remaining employee. */
  lemma CascadeKeepsReferences(employees: seq<Employee>, records: seq<SalaryRecord>, id: string)
    requires RefersToEmployees(employees, records)
    ensures RefersToEmployees(Lists.RemoveByKey(employees, id, EmployeeId),
                              Lists.RemoveByKey(records, id, RecordEmployeeId))
  {
    var es := Lists.RemoveByKey(employees, id, EmployeeId);
    var rs := Lists.RemoveByKey(records, id, RecordEmployeeId);
    forall i | 0 <= i < |rs|
      ensures exists j :: 0 <= j < |es| && es[j].id == rs[i].employeeId
    {
      var k :| 0 <= k < |records| && records[k] == rs[i];
      var j :| 0 <= j < |employees| && employees[j].id == records[k].employeeId;
      assert employees[j] in es;
      var j' :| 0 <= j' < |es| && es[j'] == employees[j];
      assert es[j'].id == rs[i].employeeId;
    }
  }
}
