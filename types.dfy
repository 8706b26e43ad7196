/** The application's entities (lib/types.ts) and the totals that tie a salary record together. */
module Types {
  import opened Base
  import Numbers

  /** An employee on the roster. `role?: string` and `baseSalary?: number | null`;
      an absent and a null salary are both `None`, since every reader treats them alike. */
  datatype Employee = Employee(id: string, name: string, role: Option<string>, baseSalary: Option<int>)

  /** One itemised expense of a salary record; `date` is "YYYY-MM-DD" or "" when absent. */
  datatype SalaryExpense = SalaryExpense(id: string, category: string, amount: int, date: string)

  /** One employee's pay entry for a month. `date` is set by the salary dialogs although
      the declared type omits it, so it is optional here. */
  datatype SalaryRecord = SalaryRecord(
    id: string,
    employeeId: string,
    year: int,
    month: int,
    baseSalary: Option<int>,
    expenses: seq<SalaryExpense>,
    totalExpenses: int,
    grandTotal: int,
    date: Option<string>)

  /** A company expense not tied to an employee. */
  datatype OtherExpense = OtherExpense(
    id: string,
    userId: string,
    category: string,
    amount: int,
    date: Option<string>,
    description: Option<string>,
    createdAt: Option<string>)

  /** A calendar period; stands for the dictionary key `${year}-${pad2(month)}`. */
  datatype YearMonth = YearMonth(year: int, month: int)

  function EmployeeId(e: Employee): string { e.id }
  function RecordId(r: SalaryRecord): string { r.id }
  function RecordEmployeeId(r: SalaryRecord): string { r.employeeId }
  function OtherExpenseId(o: OtherExpense): string { o.id }

  /** `baseSalary ?? 0`. */
  function SalaryOrZero(b: Option<int>): int {
    b.GetOr(0)
  }

  /** `ISO string like "2025-12-04"`: the pattern `^\d{4}-\d{2}-\d{2}$`. */
  predicate IsIsoDate(s: string) {
    && |s| == 10
    && (forall i :: 0 <= i < 4 ==> Numbers.IsDigit(s[i]))
    && s[4] == '-'
    && Numbers.IsDigit(s[5]) && Numbers.IsDigit(s[6])
    && s[7] == '-'
    && Numbers.IsDigit(s[8]) && Numbers.IsDigit(s[9])
  }

  /** The shape the type describes for a salary expense's date: an ISO date or empty.
      Nothing in the dialogs enforces it; the expense date input is free. */
  predicate ExpenseDateWellFormed(e: SalaryExpense) {
    e.date == "" || IsIsoDate(e.date)
  }

  /** Σ amount over the expenses. */
  function SumAmounts(es: seq<SalaryExpense>): int {
    if es == [] then 0 else SumAmounts(es[..|es| - 1]) + es[|es| - 1].amount
  }

  /** Σ grandTotal over the records. */
  function SumGrandTotals(rs: seq<SalaryRecord>): int {
    if rs == [] then 0 else SumGrandTotals(rs[..|rs| - 1]) + rs[|rs| - 1].grandTotal
  }

  /** Σ totalExpenses over the records. */
  function SumTotalExpenses(rs: seq<SalaryRecord>): int {
    if rs == [] then 0 else SumTotalExpenses(rs[..|rs| - 1]) + rs[|rs| - 1].totalExpenses
  }

  /** Σ (baseSalary ?? 0) over the records. */
  function SumBaseSalaries(rs: seq<SalaryRecord>): int {
    if rs == [] then 0 else SumBaseSalaries(rs[..|rs| - 1]) + SalaryOrZero(rs[|rs| - 1].baseSalary)
  }

  /** Σ amount over other expenses. */
  function SumOtherAmounts(os: seq<OtherExpense>): int {
    if os == [] then 0 else SumOtherAmounts(os[..|os| - 1]) + os[|os| - 1].amount
  }

  /** The record's totals are the ones its expenses and salary determine:
      totalExpenses = Σ amount and grandTotal = (baseSalary ?? 0) + totalExpenses. */
  predicate TotalsConsistent(r: SalaryRecord) {
    && r.totalExpenses == SumAmounts(r.expenses)
    && r.grandTotal == SalaryOrZero(r.baseSalary) + r.totalExpenses
  }

  /** The month is a calendar month. */
  predicate MonthInRange(r: SalaryRecord) {
    1 <= r.month <= 12
  }

  /** Sums of concatenations split. */
  lemma {:induction false} SumAmountsConcat(a: seq<SalaryExpense>, b: seq<SalaryExpense>)
    ensures SumAmounts(a + b) == SumAmounts(a) + SumAmounts(b)
  {
    if b != [] {
      assert (a + b)[..|a + b| - 1] == a + b[..|b| - 1];
      SumAmountsConcat(a, b[..|b| - 1]);
    } else {
      assert a + b == a;
    }
  }

  lemma {:induction false} SumGrandTotalsConcat(a: seq<SalaryRecord>, b: seq<SalaryRecord>)
    ensures SumGrandTotals(a + b) == SumGrandTotals(a) + SumGrandTotals(b)
  {
    if b != [] {
      assert (a + b)[..|a + b| - 1] == a + b[..|b| - 1];
      SumGrandTotalsConcat(a, b[..|b| - 1]);
    } else {
      assert a + b == a;
    }
  }

  lemma {:induction false} SumOtherAmountsConcat(a: seq<OtherExpense>, b: seq<OtherExpense>)
    ensures SumOtherAmounts(a + b) == SumOtherAmounts(a) + SumOtherAmounts(b)
  {
    if b != [] {
      assert (a + b)[..|a + b| - 1] == a + b[..|b| - 1];
      SumOtherAmountsConcat(a, b[..|b| - 1]);
    } else {
      assert a + b == a;
    }
  }

  /** When every record is consistent, the grand totals split into salaries plus expenses. */
  lemma {:induction false} GrandTotalsSplit(rs: seq<SalaryRecord>)
    requires forall i :: 0 <= i < |rs| ==> TotalsConsistent(rs[i])
    ensures SumGrandTotals(rs) == SumBaseSalaries(rs) + SumTotalExpenses(rs)
  {
    if rs != [] {
      GrandTotalsSplit(rs[..|rs| - 1]);
    }
  }
}
