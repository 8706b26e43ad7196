/** The two employee pages: the detail page that reads its employee id from the path and
    loads the employee, its records and their expenses, and the read-only detail view
    that is handed an employee and its records. */
module EmployeePages {
  import opened Base
  import opened Types
  import Lists
  import RecordJoin
  import Dashboard

  // Path-id extraction.

  /** `s.split("/")`: the pieces between the separators, empty ones included; a string
      without separators is one piece. */
  function Split(s: string): (parts: seq<string>)
    ensures |parts| >= 1
  {
    if |s| == 0 then [""]
    else
      var init := Split(s[..|s| - 1]);
      var c := s[|s| - 1];
      if c == '/' then init + [""]
      else init[..|init| - 1] + [init[|init| - 1] + [c]]
  }

  /** `.filter(Boolean)`: the non-empty pieces, in order. */
  function NonEmpty(parts: seq<string>): (r: seq<string>)
    ensures forall i :: 0 <= i < |r| ==> |r[i]| > 0
  {
    if |parts| == 0 then []
    else
      var last := parts[|parts| - 1];
      NonEmpty(parts[..|parts| - 1]) + (if |last| > 0 then [last] else [])
  }

  /** `segments[segments.length - 1] ?? ""`. */
  function LastOrEmpty(parts: seq<string>): string {
    if |parts| == 0 then "" else parts[|parts| - 1]
  }

  /** `pathname.split("/").filter(Boolean)` and its last element, or "". */
  function LastSegment(s: string): string {
    LastOrEmpty(NonEmpty(Split(s)))
  }

  /** The detail page's `id`: "" without a path, otherwise the last non-empty segment. */
  function PathId(pathname: Option<string>): string {
    if pathname.None? || |pathname.value| == 0 then "" else LastSegment(pathname.value)
  }

  /** The path with its trailing separators removed. */
  function DropTrailingSlashes(s: string): (r: string)
    ensures |r| <= |s| && r == s[..|r|]
    ensures |r| == 0 || r[|r| - 1] != '/'
    ensures forall i :: |r| <= i < |s| ==> s[i] == '/'
  {
    if |s| == 0 || s[|s| - 1] != '/' then s else DropTrailingSlashes(s[..|s| - 1])
  }

  /** What follows the last separator: the whole string when there is none. */
  function AfterLastSlash(s: string): (r: string)
    ensures |r| <= |s| && r == s[|s| - |r|..]
    ensures forall i :: 0 <= i < |r| ==> r[i] != '/'
    ensures |r| < |s| ==> s[|s| - |r| - 1] == '/'
  {
    if |s| == 0 || s[|s| - 1] == '/' then [] else AfterLastSlash(s[..|s| - 1]) + [s[|s| - 1]]
  }

  /** The last piece of a split is what follows the last separator. */
  lemma {:induction false} LastPieceAfterLastSlash(s: string)
    ensures LastOrEmpty(Split(s)) == AfterLastSlash(s)
  {
    if |s| > 0 {
      LastPieceAfterLastSlash(s[..|s| - 1]);
    }
  }

  /** A trailing separator adds only an empty piece, which the filter drops. */
  lemma TrailingSlashIgnored(s: string)
    requires |s| > 0 && s[|s| - 1] == '/'
    ensures NonEmpty(Split(s)) == NonEmpty(Split(s[..|s| - 1]))
  {
    var init := Split(s[..|s| - 1]);
    assert Split(s) == init + [""];
    assert (init + [""])[..|init|] == init;
  }

  /** When the path does not end in a separator, its last piece is not empty, so it is
      the last piece the filter keeps. */
  lemma LastPieceNonEmpty(s: string)
    requires |s| > 0 && s[|s| - 1] != '/'
    ensures LastOrEmpty(NonEmpty(Split(s))) == LastOrEmpty(Split(s))
  {
    var parts := Split(s);
    var init := Split(s[..|s| - 1]);
    assert parts == init[..|init| - 1] + [init[|init| - 1] + [s[|s| - 1]]];
    var last := parts[|parts| - 1];
    assert |last| > 0;
    assert NonEmpty(parts) == NonEmpty(parts[..|parts| - 1]) + [last];
  }

  /** The last segment is what follows the last separator once the trailing ones are gone. */
  lemma {:induction false} LastSegmentAfterLastSlash(p: string)
    ensures LastSegment(p) == AfterLastSlash(DropTrailingSlashes(p))
  {
    if |p| == 0 {
      assert Split(p) == [""];
      assert NonEmpty([""]) == NonEmpty([]) + [];
    } else if p[|p| - 1] == '/' {
      var q := p[..|p| - 1];
      TrailingSlashIgnored(p);
      LastSegmentAfterLastSlash(q);
      assert DropTrailingSlashes(p) == DropTrailingSlashes(q);
    } else {
      LastPieceNonEmpty(p);
      LastPieceAfterLastSlash(p);
      assert DropTrailingSlashes(p) == p;
    }
  }

  /** The extracted id is what follows the last separator once the trailing ones are gone:
      the last segment of the path, with no separator in it. */
  lemma PathIdIsLastSegment(p: string)
    ensures PathId(Some(p)) == AfterLastSlash(DropTrailingSlashes(p))
  {
    LastSegmentAfterLastSlash(p);
  }

  /** The id has no separator, and it is empty exactly when the path is only separators. */
  lemma PathIdShape(p: string)
    ensures forall i :: 0 <= i < |PathId(Some(p))| ==> PathId(Some(p))[i] != '/'
    ensures |PathId(Some(p))| == 0 <==> forall i :: 0 <= i < |p| ==> p[i] == '/'
  {
    PathIdIsLastSegment(p);
    var d := DropTrailingSlashes(p);
    if |d| > 0 {
      assert AfterLastSlash(d) == AfterLastSlash(d[..|d| - 1]) + [d[|d| - 1]];
      assert p[|d| - 1] == d[|d| - 1];
    }
  }

  // Totals over the loaded records.

  /** Σ grandTotal over the records carrying id `id`. */
  function PaidFor(rs: seq<SalaryRecord>, id: string): int {
    if |rs| == 0 then 0
    else PaidFor(rs[..|rs| - 1], id) + (if rs[|rs| - 1].id == id then rs[|rs| - 1].grandTotal else 0)
  }

  /** A delete lowers `totalPaid` by exactly what the deleted records paid. */
  lemma {:induction false} PaidAfterDelete(rs: seq<SalaryRecord>, id: string)
    ensures SumGrandTotals(Lists.RemoveByKey(rs, id, RecordId)) == SumGrandTotals(rs) - PaidFor(rs, id)
  {
    if |rs| > 0 {
      var init := rs[..|rs| - 1];
      PaidAfterDelete(init, id);
      var kept := Lists.RemoveByKey(init, id, RecordId);
      if rs[|rs| - 1].id != id {
        var r := kept + [rs[|rs| - 1]];
        assert r[..|r| - 1] == kept;
      } else {
        assert kept + [] == kept;
      }
    }
  }

  /** A save changes `totalPaid` only through the records with the saved id: what they
      paid before is replaced by what they pay after. */
  lemma {:induction false} PaidAfterSave(rs: seq<SalaryRecord>, u: SalaryRecord)
    ensures SumGrandTotals(Lists.ReplaceById(rs, u, RecordId)) + PaidFor(rs, u.id) ==
      SumGrandTotals(rs) + PaidFor(Lists.ReplaceById(rs, u, RecordId), u.id)
  {
    if |rs| > 0 {
      var init := rs[..|rs| - 1];
      PaidAfterSave(init, u);
      var r := Lists.ReplaceById(rs, u, RecordId);
      assert r[..|r| - 1] == Lists.ReplaceById(init, u, RecordId);
    }
  }

  // The detail page.

  /** `.maybeSingle()`: the one row found, none, or the query's error. */
  datatype Single<T> = Found(value: T) | NotFound | SingleError(message: string)

  const NoIdMessage: string := "No employee id in URL."
  const NotFoundMessage: string := "Employee not found."

  /** The detail page's state. */
  class EmployeeDetailPage {
    var employee: Option<Employee>
    var records: seq<SalaryRecord>
    var loading: bool
    var error: Option<string>
    var deletingRecord: Option<SalaryRecord>
    var deleting: bool

    constructor()
      ensures employee.None? && records == [] && loading && error.None?
      ensures deletingRecord.None? && !deleting
    {
      employee := None;
      records := [];
      loading := true;
      error := None;
      deletingRecord := None;
      deleting := false;
    }

    /** `totalPaid`. */
    function TotalPaid(): int
      reads this
    {
      SumGrandTotals(records)
    }

    /** `totalExpenses`. */
    function TotalExpenses(): int
      reads this
    {
      SumTotalExpenses(records)
    }

    /** `load`, run with the page's id and the answers of the employee, record and expense
        queries. Every path ends with loading off. An early stop sets its message and
        keeps the records; the expense query is only made when there are records. */
    method Load(id: string, emp: Single<Employee>, recordFetch: Fetch<RecordJoin.RecordRow>,
                expenseFetch: Fetch<RecordJoin.ExpenseRow>)
      modifies this
      ensures !loading && deletingRecord == old(deletingRecord) && deleting == old(deleting)
      ensures id == "" ==> error == Some(NoIdMessage) && employee == old(employee) && records == old(records)
      ensures id != "" && emp.SingleError? ==>
        error == Some("Error loading employee: " + emp.message) &&
        employee == old(employee) && records == old(records)
      ensures id != "" && emp.NotFound? ==>
        error == Some(NotFoundMessage) && employee == old(employee) && records == old(records)
      ensures id != "" && emp.Found? ==> employee == Some(emp.value)
      ensures id != "" && emp.Found? && recordFetch.FetchError? ==>
        error == Some("Error loading salary records: " + recordFetch.message) && records == old(records)
      ensures id != "" && emp.Found? && recordFetch.Rows? && |recordFetch.rows| == 0 ==>
        error.None? && records == []
      ensures id != "" && emp.Found? && recordFetch.Rows? && |recordFetch.rows| > 0 && expenseFetch.FetchError? ==>
        error == Some("Error loading salary expenses: " + expenseFetch.message) && records == old(records)
      ensures id != "" && emp.Found? && recordFetch.Rows? && |recordFetch.rows| > 0 && expenseFetch.Rows? ==>
        error.None? && records == RecordJoin.Joined(recordFetch.rows, expenseFetch.rows)
    {
      if id == "" {
        error := Some(NoIdMessage);
        loading := false;
        return;
      }
      loading := true;
      error := None;
      match emp {
        case SingleError(msg) =>
          error := Some("Error loading employee: " + msg);
          loading := false;
          return;
        case NotFound =>
          error := Some(NotFoundMessage);
          loading := false;
          return;
        case Found(e) =>
          employee := Some(e);
      }
      if recordFetch.FetchError? {
        error := Some("Error loading salary records: " + recordFetch.message);
        loading := false;
        return;
      }
      var recordRows := recordFetch.rows;
      var expenseRows: seq<RecordJoin.ExpenseRow> := [];
      if |recordRows| > 0 {
        if expenseFetch.FetchError? {
          error := Some("Error loading salary expenses: " + expenseFetch.message);
          loading := false;
          return;
        }
        expenseRows := expenseFetch.rows;
      }
      records := RecordJoin.JoinRecords(recordRows, expenseRows);
      loading := false;
    }

    /** The delete button of a row: the record awaiting confirmation. */
    method AskDelete(r: SalaryRecord)
      modifies this
      ensures deletingRecord == Some(r)
      ensures employee == old(employee) && records == old(records) && loading == old(loading)
      ensures error == old(error) && deleting == old(deleting)
    {
      deletingRecord := Some(r);
    }

    /** `handleSaveRecord`, with `userId` the session's user: the record update, the
        deletion of its old expenses and, when it has expenses, their insertion must all
        succeed; then the record with that id is replaced. */
    method SaveRecord(userId: Option<string>, u: SalaryRecord, update: Outcome,
                      deleteExpenses: Outcome, insertExpenses: Outcome)
      modifies this
      ensures employee == old(employee) && loading == old(loading) && error == old(error)
      ensures deletingRecord == old(deletingRecord) && deleting == old(deleting)
      ensures Dashboard.SaveSucceeds(userId, u, update, deleteExpenses, insertExpenses) ==>
        records == Lists.ReplaceById(old(records), u, RecordId)
      ensures !Dashboard.SaveSucceeds(userId, u, update, deleteExpenses, insertExpenses) ==>
        records == old(records)
    {
      if !SignedIn(userId) || update.Failed? || deleteExpenses.Failed? {
        return;
      }
      if |u.expenses| > 0 && insertExpenses.Failed? {
        return;
      }
      records := Lists.ReplaceById(records, u, RecordId);
    }

    /** `handleDeleteRecord`: without a record awaiting confirmation nothing happens; a
        failed delete keeps the list and the pending record; a successful one removes
        every record with that id and clears the pending record. */
    method DeleteRecord(delete: Outcome)
      modifies this
      ensures employee == old(employee) && loading == old(loading) && error == old(error)
      ensures old(deletingRecord).None? ==> records == old(records) && deletingRecord.None? && deleting == old(deleting)
      ensures old(deletingRecord).Some? ==> !deleting
      ensures old(deletingRecord).Some? && delete.Failed? ==>
        records == old(records) && deletingRecord == old(deletingRecord)
      ensures old(deletingRecord).Some? && delete.Ok? ==>
        records == Lists.RemoveByKey(old(records), old(deletingRecord).value.id, RecordId) &&
        deletingRecord.None?
    {
      if deletingRecord.None? {
        return;
      }
      deleting := true;
      var id := deletingRecord.value.id;
      if delete.Failed? {
        deleting := false;
        return;
      }
      records := Lists.RemoveByKey(records, id, RecordId);
      deletingRecord := None;
      deleting := false;
    }
  }

  /** After a successful delete, `totalPaid` has dropped by what the deleted record's id
      paid, and no record with that id is left. */
  lemma DeleteLowersTotalPaid(rs: seq<SalaryRecord>, id: string)
    ensures SumGrandTotals(Lists.RemoveByKey(rs, id, RecordId)) == SumGrandTotals(rs) - PaidFor(rs, id)
    ensures forall i :: 0 <= i < |Lists.RemoveByKey(rs, id, RecordId)| ==>
      Lists.RemoveByKey(rs, id, RecordId)[i].id != id
  {
    PaidAfterDelete(rs, id);
  }

  // The read-only detail view.

  /** `EmployeeDetailClient`: the records are taken once from its props and no setter is
      kept, so they are constant. */
  class EmployeeDetailView {
    const employee: Employee
    const records: seq<SalaryRecord>

    constructor(employee: Employee, initialRecords: seq<SalaryRecord>)
      ensures this.employee == employee && records == initialRecords
    {
      this.employee := employee;
      records := initialRecords;
    }

    /** `totalPaid`: Σ grandTotal. */
    function TotalPaid(): int {
      SumGrandTotals(records)
    }

    /** `totalExpenses`: Σ totalExpenses. */
    function TotalExpenses(): int {
      SumTotalExpenses(records)
    }

    /** With consistent records, what the view shows as paid is the salaries plus the
        expenses it shows; with no records both totals are 0. */
    lemma TotalsAgree()
      requires forall i :: 0 <= i < |records| ==> TotalsConsistent(records[i])
      ensures TotalPaid() == SumBaseSalaries(records) + TotalExpenses()
      ensures |records| == 0 ==> TotalPaid() == 0 && TotalExpenses() == 0
    {
      GrandTotalsSplit(records);
    }
  }
}
