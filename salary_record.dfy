/** The add and edit salary-record dialogs: the expense draft list they keep, the totals
    they preview, and the `SalaryRecord` their submit handlers build. The two dialogs
    share this logic line for line; the edit dialog adds prefilling and keeps the id. */
module SalaryRecordForm {
  import opened Base
  import opened Types
  import Strings
  import Numbers
  import Lists
  import Validators

  /** The form values react-hook-form holds: employee, "YYYY-MM-DD" date, salary text. */
  datatype RecordForm = RecordForm(employeeId: string, date: string, salary: Option<string>)

  /** One expense as typed into the dialog, with the amount kept as text. */
  datatype ExpenseDraft = ExpenseDraft(id: string, category: string, amount: string, date: string)

  const EmptyDraft: ExpenseDraft := ExpenseDraft("", "", "", "")

  function DraftId(d: ExpenseDraft): string { d.id }
  function ExpenseId(e: SalaryExpense): string { e.id }

  /** The form the dialogs reset to: no employee, today's date, no salary. */
  function BlankForm(today: string): RecordForm {
    RecordForm("", today, Some(""))
  }

  /** `recordSchema`: an employee is chosen, the date is a "YYYY-MM-DD" string and the
      salary is empty or a non-negative number. */
  predicate RecordSchema(f: RecordForm) {
    && |f.employeeId| >= 1
    && Validators.RecordDateValid(f.date)
    && Validators.SalaryFieldValid(f.salary)
  }

  /** Year and month of a "YYYY-MM-DD" date, read from its digits. */
  function PeriodOfDate(d: string): (p: (int, int))
    requires IsIsoDate(d)
    ensures 0 <= p.0 <= 9999 && 0 <= p.1 <= 99
  {
    var y := d[..4];
    var m := d[5..7];
    Numbers.DigitsValueBound(y);
    Numbers.DigitsValueBound(m);
    assert Numbers.Pow10(4) == 10000 && Numbers.Pow10(2) == 100;
    (Numbers.DigitsValue(y), Numbers.DigitsValue(m))
  }

  /** The period is the number the date's year and month digits spell, whatever they are:
      "2025-13-01" gives month 13. */
  lemma PeriodOfDateReadsDigits(d: string)
    requires IsIsoDate(d)
    ensures Numbers.ToNumber(d[..4]) == Numbers.Int(PeriodOfDate(d).0)
    ensures Numbers.ToNumber(d[5..7]) == Numbers.Int(PeriodOfDate(d).1)
  {
    Strings.TrimOfTrimmed(d[..4]);
    Strings.TrimOfTrimmed(d[5..7]);
    Numbers.ToNumberShape(d[..4]);
    Numbers.ToNumberShape(d[5..7]);
  }

  /** `canAddExpense`: the category and the amount are not blank, and the amount is a
      non-negative number. */
  predicate CanAddExpense(d: ExpenseDraft) {
    && |Strings.Trim(d.category)| > 0
    && |Strings.Trim(d.amount)| > 0
    && Validators.IsNonNegativeNumber(d.amount)
  }

  /** One draft after `Number(e.amount)`: nothing when the amount is `NaN`. */
  function NormaliseOne(d: ExpenseDraft): (r: seq<SalaryExpense>)
    ensures Numbers.ToNumber(d.amount).NaN? <==> r == []
  {
    var n := Numbers.ToNumber(d.amount);
    if n.NaN? then [] else [SalaryExpense(d.id, d.category, n.v, d.date)]
  }

  /** `expenses.map(...).filter(e => e !== null)`: the drafts whose amount is a number, in
      order, as stored expenses. */
  function NormaliseExpenses(ds: seq<ExpenseDraft>): (r: seq<SalaryExpense>)
    ensures |r| <= |ds|
  {
    if ds == [] then [] else NormaliseExpenses(ds[..|ds| - 1]) + NormaliseOne(ds[|ds| - 1])
  }

  /** Normalisation works draft by draft, so it keeps the order of the drafts. */
  lemma {:induction false} NormaliseConcat(a: seq<ExpenseDraft>, b: seq<ExpenseDraft>)
    ensures NormaliseExpenses(a + b) == NormaliseExpenses(a) + NormaliseExpenses(b)
  {
    if b == [] {
      assert a + b == a;
    } else {
      var init, last := b[..|b| - 1], b[|b| - 1];
      assert (a + b)[..|a + b| - 1] == a + init;
      assert (a + b)[|a + b| - 1] == last;
      NormaliseConcat(a, init);
      calc {
        NormaliseExpenses(a + b);
        NormaliseExpenses(a + init) + NormaliseOne(last);
        (NormaliseExpenses(a) + NormaliseExpenses(init)) + NormaliseOne(last);
        NormaliseExpenses(a) + (NormaliseExpenses(init) + NormaliseOne(last));
        NormaliseExpenses(a) + NormaliseExpenses(b);
      }
    }
  }

  /** When every amount parses, nothing is dropped and each expense keeps its draft's
      id, category and date. */
  lemma {:induction false} NormaliseAllParsable(ds: seq<ExpenseDraft>)
    requires forall i :: 0 <= i < |ds| ==> Numbers.ToNumber(ds[i].amount).Int?
    ensures |NormaliseExpenses(ds)| == |ds|
    ensures forall i :: 0 <= i < |ds| ==>
      var e := NormaliseExpenses(ds)[i];
      e.id == ds[i].id && e.category == ds[i].category && e.date == ds[i].date
      && Numbers.ToNumber(ds[i].amount) == Numbers.Int(e.amount)
  {
    if ds != [] {
      NormaliseAllParsable(ds[..|ds| - 1]);
    }
  }

  /** A draft added through the "+ Add expense" button always survives normalisation,
      as the last expense, with a non-negative amount. */
  lemma AddedExpenseKept(ds: seq<ExpenseDraft>, d: ExpenseDraft)
    requires CanAddExpense(d)
    ensures var r := NormaliseExpenses(ds + [d]);
      |r| == |NormaliseExpenses(ds)| + 1 && r[|r| - 1].id == d.id && r[|r| - 1].amount >= 0
  {
    assert (ds + [d])[..|ds + [d]| - 1] == ds;
  }

  /** Removing a draft by id and then normalising is normalising and then removing it. */
  lemma {:induction false} NormaliseRemove(ds: seq<ExpenseDraft>, id: string)
    ensures NormaliseExpenses(Lists.RemoveByKey(ds, id, DraftId))
         == Lists.RemoveByKey(NormaliseExpenses(ds), id, ExpenseId)
  {
    if ds != [] {
      var init, last := ds[..|ds| - 1], ds[|ds| - 1];
      NormaliseRemove(init, id);
      var kept := if last.id != id then [last] else [];
      NormaliseConcat(Lists.RemoveByKey(init, id, DraftId), kept);
      Lists.RemoveByKeyConcat(NormaliseExpenses(init), NormaliseOne(last), id, ExpenseId);
      assert kept == [] ==> NormaliseExpenses(kept) == [];
      assert kept == [last] ==> NormaliseExpenses(kept) == NormaliseOne(last) by {
        if kept == [last] { assert kept[..0] == []; }
      }
      var one := NormaliseOne(last);
      assert one != [] ==> one[..0] == [];
    }
  }

  /** The preview's `totalExpensesNumber`: Σ Number(amount), skipping `NaN`. */
  function PreviewExpenseTotal(ds: seq<ExpenseDraft>): int {
    if ds == [] then 0
    else
      var n := Numbers.ToNumber(ds[|ds| - 1].amount);
      PreviewExpenseTotal(ds[..|ds| - 1]) + (if n.NaN? then 0 else n.v)
  }

  /** The preview's `salaryNumber`: `salary ? Number(salary) : 0`. */
  function PreviewSalary(salary: Option<string>): Numbers.Num {
    if Validators.Falsy(salary) then Numbers.Int(0) else Numbers.ToNumber(salary.value)
  }

  /** The preview's `grandTotal`. */
  function PreviewGrandTotal(salary: Option<string>, ds: seq<ExpenseDraft>): Numbers.Num {
    PreviewSalary(salary).Plus(Numbers.Int(PreviewExpenseTotal(ds)))
  }

  /** The expense total the dialog previews is the total of what submitting stores. */
  lemma {:induction false} PreviewIsStoredTotal(ds: seq<ExpenseDraft>)
    ensures PreviewExpenseTotal(ds) == SumAmounts(NormaliseExpenses(ds))
  {
    if ds != [] {
      var init, last := ds[..|ds| - 1], ds[|ds| - 1];
      PreviewIsStoredTotal(init);
      SumAmountsConcat(NormaliseExpenses(init), NormaliseOne(last));
      var one := NormaliseOne(last);
      assert one != [] ==> one[..0] == [];
    }
  }

  /** `handleSubmit`'s record, for an accepted form: the normalised expenses, their total,
      and grandTotal = (baseSalary ?? 0) + totalExpenses. */
  function BuildRecord(f: RecordForm, ds: seq<ExpenseDraft>, id: string): (r: SalaryRecord)
    requires RecordSchema(f)
    ensures TotalsConsistent(r)
    ensures r.id == id && r.employeeId == f.employeeId && r.date == Some(f.date)
    ensures (r.year, r.month) == PeriodOfDate(f.date)
    ensures r.baseSalary.None? <==> f.salary.None? || Strings.IsBlank(f.salary.value)
    ensures r.baseSalary.Some? ==> r.baseSalary.value >= 0
    ensures r.expenses == NormaliseExpenses(ds)
  {
    var baseSalary := Validators.RecordBaseSalary(f.salary);
    var expenses := NormaliseExpenses(ds);
    var total := SumAmounts(expenses);
    var (year, month) := PeriodOfDate(f.date);
    SalaryRecord(id, f.employeeId, year, month, baseSalary, expenses, total,
                 SalaryOrZero(baseSalary) + total, Some(f.date))
  }

  /** The previewed salary is the salary the record stores, or 0 when it stores none. */
  lemma PreviewSalaryIsStored(salary: Option<string>)
    requires Validators.SalaryFieldValid(salary)
    ensures PreviewSalary(salary) == Numbers.Int(SalaryOrZero(Validators.RecordBaseSalary(salary)))
  {
    if salary.Some? {
      Numbers.ToNumberShape(salary.value);
    }
  }

  /** What the dialog previews is what it saves: for an accepted form the previewed grand
      total is the record's grandTotal. */
  lemma PreviewMatchesRecord(f: RecordForm, ds: seq<ExpenseDraft>, id: string)
    requires RecordSchema(f)
    ensures PreviewGrandTotal(f.salary, ds) == Numbers.Int(BuildRecord(f, ds, id).grandTotal)
  {
    PreviewIsStoredTotal(ds);
    PreviewSalaryIsStored(f.salary);
  }

  /** The add dialog's submit: the resolver runs `handleSubmit` only on an accepted form,
      which then yields a record with a fresh id. */
  function SubmitAdd(f: RecordForm, ds: seq<ExpenseDraft>, freshId: string): (r: Option<SalaryRecord>)
    ensures r.Some? <==> RecordSchema(f)
    ensures r.Some? ==> r.value.id == freshId && TotalsConsistent(r.value)
  {
    if RecordSchema(f) then Some(BuildRecord(f, ds, freshId)) else None
  }

  /** The edit dialog's submit: without a record there is no form and no save; otherwise
      the saved record keeps the original id. */
  function SubmitEdit(record: Option<SalaryRecord>, f: RecordForm, ds: seq<ExpenseDraft>): (r: Option<SalaryRecord>)
    ensures r.Some? <==> record.Some? && RecordSchema(f)
    ensures r.Some? ==> r.value.id == record.value.id && TotalsConsistent(r.value)
  {
    if record.Some? && RecordSchema(f) then Some(BuildRecord(f, ds, record.value.id)) else None
  }

  /** The edit dialog's prefilled form for a record. */
  function PrefillForm(r: SalaryRecord, today: string): (f: RecordForm)
    ensures f.employeeId == r.employeeId
    ensures f.salary == Some(Validators.SalaryText(r.baseSalary))
    ensures f.salary == Some("") <==> r.baseSalary.None?
    ensures r.date.Some? && r.date.value != "" ==> f.date == Strings.Take(r.date.value, 10)
    ensures r.date.None? || r.date == Some("") ==> f.date == today
  {
    RecordForm(r.employeeId,
               if r.date.Some? && r.date.value != "" then Strings.Take(r.date.value, 10) else today,
               Some(Validators.SalaryText(r.baseSalary)))
  }

  /** The draft the edit dialog opens for one stored expense: its amount as text. */
  function PrefillOne(e: SalaryExpense): (d: ExpenseDraft)
    ensures d.id == e.id && d.category == e.category && d.date == e.date
    ensures Numbers.ToNumber(d.amount) == Numbers.Int(e.amount)
  {
    Numbers.NumberOfString(e.amount);
    ExpenseDraft(e.id, e.category, Numbers.IntToString(e.amount), e.date)
  }

  /** The edit dialog's drafts for a record's expenses, one per expense, in order. */
  function PrefillExpenses(es: seq<SalaryExpense>): (ds: seq<ExpenseDraft>)
    ensures |ds| == |es|
  {
    if |es| == 0 then [] else PrefillExpenses(es[..|es| - 1]) + [PrefillOne(es[|es| - 1])]
  }

  /** A prefilled draft normalises back to its expense. */
  lemma PrefilledDraftKept(e: SalaryExpense)
    ensures NormaliseOne(PrefillOne(e)) == [e]
  {
  }

  /** Prefilled drafts normalise back to the record's own expenses. */
  lemma {:induction false} PrefillExpensesRoundTrip(es: seq<SalaryExpense>)
    ensures NormaliseExpenses(PrefillExpenses(es)) == es
  {
    if |es| > 0 {
      var init, e := es[..|es| - 1], es[|es| - 1];
      var ds := PrefillExpenses(es);
      assert ds[..|ds| - 1] == PrefillExpenses(init);
      assert ds[|ds| - 1] == PrefillOne(e);
      assert NormaliseExpenses(ds) == NormaliseExpenses(ds[..|ds| - 1]) + NormaliseOne(ds[|ds| - 1]);
      PrefillExpensesRoundTrip(init);
      PrefilledDraftKept(e);
      assert init + [e] == es;
    }
  }

  /** Saving an edit dialog that was opened on a record and left untouched gives back the
      same record, provided the record is consistent, its date is a "YYYY-MM-DD" string
      matching its year and month, and its salary is absent or non-negative. */
  lemma UntouchedEditRoundTrip(r: SalaryRecord, today: string)
    requires TotalsConsistent(r)
    requires |r.employeeId| >= 1
    requires r.date.Some? && IsIsoDate(r.date.value) && PeriodOfDate(r.date.value) == (r.year, r.month)
    requires r.baseSalary.None? || r.baseSalary.value >= 0
    ensures SubmitEdit(Some(r), PrefillForm(r, today), PrefillExpenses(r.expenses)) == Some(r)
  {
    var f := PrefillForm(r, today);
    var ds := PrefillExpenses(r.expenses);
    assert f.date == r.date.value;
    Validators.SalaryTextAccepted(r.baseSalary);
    assert RecordSchema(f);
    Validators.SalaryTextRoundTrip(r.baseSalary);
    Validators.SalaryConversionsAgree(f.salary);
    assert Validators.RecordBaseSalary(f.salary) == r.baseSalary;
    PrefillExpensesRoundTrip(r.expenses);
    var b := BuildRecord(f, ds, r.id);
    assert b.expenses == r.expenses && b.baseSalary == r.baseSalary;
    assert b.totalExpenses == r.totalExpenses && b.grandTotal == r.grandTotal;
    assert b.year == r.year && b.month == r.month && b.date == r.date;
  }

  /** A record loaded from the data store carries no date, so the edit dialog fills in
      today's: saving it untouched keeps its id, employee, salary and expenses but moves
      it to today's year and month, and so changes it whenever that period differs. */
  lemma UntouchedEditOfLoadedRecord(r: SalaryRecord, today: string)
    requires r.date.None?
    requires |r.employeeId| >= 1
    requires r.baseSalary.None? || r.baseSalary.value >= 0
    requires IsIsoDate(today)
    ensures SubmitEdit(Some(r), PrefillForm(r, today), PrefillExpenses(r.expenses)).Some?
    ensures var s := SubmitEdit(Some(r), PrefillForm(r, today), PrefillExpenses(r.expenses)).value;
      && s.id == r.id && s.employeeId == r.employeeId && s.baseSalary == r.baseSalary
      && s.expenses == r.expenses && s.date == Some(today)
      && (s.year, s.month) == PeriodOfDate(today)
      && (PeriodOfDate(today) != (r.year, r.month) ==> s != r)
  {
    var f := PrefillForm(r, today);
    assert f.date == today;
    Validators.SalaryTextAccepted(r.baseSalary);
    assert RecordSchema(f);
    Validators.SalaryTextRoundTrip(r.baseSalary);
    Validators.SalaryConversionsAgree(f.salary);
    PrefillExpensesRoundTrip(r.expenses);
  }

  /** The state one salary-record dialog keeps besides its props: the form, the expense
      being typed, and the expenses added so far. */
  class SalaryRecordDialog {
    var form: RecordForm
    var draft: ExpenseDraft
    var expenses: seq<ExpenseDraft>

    constructor (today: string)
      ensures form == BlankForm(today) && draft == EmptyDraft && expenses == []
    {
      form := BlankForm(today);
      draft := EmptyDraft;
      expenses := [];
    }

    /** An input of the form changes. */
    method EditForm(f: RecordForm)
      modifies this
      ensures form == f && draft == old(draft) && expenses == old(expenses)
    {
      form := f;
    }

    /** An input of the expense draft changes. */
    method EditDraft(d: ExpenseDraft)
      modifies this
      ensures draft == d && form == old(form) && expenses == old(expenses)
    {
      draft := d;
    }

    /** `handleAddExpense`: nothing happens unless `canAddExpense`; otherwise the draft is
        appended once, under a fresh id, and the draft is cleared. */
    method AddExpense(freshId: string)
      modifies this
      ensures form == old(form)
      ensures !CanAddExpense(old(draft)) ==> draft == old(draft) && expenses == old(expenses)
      ensures CanAddExpense(old(draft)) ==>
        draft == EmptyDraft && expenses == old(expenses) + [old(draft).(id := freshId)]
    {
      if !CanAddExpense(draft) {
        return;
      }
      expenses := expenses + [draft.(id := freshId)];
      draft := EmptyDraft;
    }

    /** `handleRemoveExpense`: every draft with that id goes, the others keep their order. */
    method RemoveExpense(id: string)
      modifies this
      ensures expenses == Lists.RemoveByKey(old(expenses), id, DraftId)
      ensures form == old(form) && draft == old(draft)
    {
      expenses := Lists.RemoveByKey(expenses, id, DraftId);
    }

    /** The effect when the dialog closes: the list and draft are cleared and the form reset. */
    method Close(today: string)
      modifies this
      ensures form == BlankForm(today) && draft == EmptyDraft && expenses == []
    {
      form := BlankForm(today);
      expenses := [];
      draft := EmptyDraft;
    }

    /** The edit dialog's effect on opening: with a record, the form and the expenses are
        prefilled and the draft cleared; without one nothing changes. */
    method Open(record: Option<SalaryRecord>, today: string)
      modifies this
      ensures record.None? ==> form == old(form) && draft == old(draft) && expenses == old(expenses)
      ensures record.Some? ==>
        form == PrefillForm(record.value, today) && draft == EmptyDraft
        && expenses == PrefillExpenses(record.value.expenses)
    {
      if record.Some? {
        form := PrefillForm(record.value, today);
        expenses := PrefillExpenses(record.value.expenses);
        draft := EmptyDraft;
      }
    }
  }
}
