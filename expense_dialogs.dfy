/** The two other-expense dialogs: the add form's schema and the payload it hands to the
    page, and the edit dialog's draft, its checks and its save with success and failure. */
module ExpenseDialogs {
  import opened Base
  import opened Types
  import Strings
  import Numbers
  import Validators

  /** The add form's field values as the form library holds them. */
  datatype OtherExpenseForm = OtherExpenseForm(
    category: string,
    amount: string,
    date: Option<string>,
    description: Option<string>)

  /** The add dialog's `schema`: a category of at least one character, a non-empty
      non-negative number, and a date that is empty or `YYYY-MM-DD`. */
  predicate OtherExpenseSchema(f: OtherExpenseForm) {
    |f.category| >= 1 && |f.amount| >= 1 && Validators.IsNonNegativeNumber(f.amount) &&
    Validators.OptionalDateValid(f.date)
  }

  /** The payload `handleSubmit` passes to `onAdd`. */
  datatype NewOtherExpense = NewOtherExpense(
    id: string,
    category: string,
    amount: int,
    date: Option<string>,
    description: Option<string>)

  /** The payload of an accepted form: a fresh id, the trimmed category, the amount as a
      number, the date only when it is not blank, and the description trimmed when given. */
  function OtherExpensePayload(f: OtherExpenseForm, freshId: string): (p: NewOtherExpense)
    requires OtherExpenseSchema(f)
    ensures p.id == freshId
    ensures p.category == Strings.Trim(f.category)
    ensures Numbers.ToNumber(f.amount) == Numbers.Int(p.amount) && p.amount >= 0
    ensures p.date.None? <==> f.date.None? || Strings.IsBlank(f.date.value)
    ensures p.date.Some? ==> p.date == f.date && IsIsoDate(p.date.value)
    ensures p.description.None? <==> f.description.None?
    ensures p.description.Some? ==> p.description.value == Strings.Trim(f.description.value)
  {
    NewOtherExpense(
      freshId,
      Strings.Trim(f.category),
      Numbers.ToNumber(f.amount).v,
      if f.date.Some? && f.date.value != "" && Strings.Trim(f.date.value) != "" then f.date else None,
      if f.description.Some? then Some(Strings.Trim(f.description.value)) else None)
  }

  /** The stored category needs no further trimming. */
  lemma PayloadCategoryTrimmed(f: OtherExpenseForm, freshId: string)
    requires OtherExpenseSchema(f)
    ensures Strings.Trim(OtherExpensePayload(f, freshId).category) == OtherExpensePayload(f, freshId).category
  {
    Strings.TrimIdempotent(f.category);
  }

  /** The category check counts characters before trimming: a category of spaces passes
      the schema and is stored as the empty string. */
  lemma BlankCategoryStoredEmpty(f: OtherExpenseForm, freshId: string)
    requires OtherExpenseSchema(f) && Strings.IsBlank(f.category)
    ensures |f.category| >= 1
    ensures OtherExpensePayload(f, freshId).category == ""
  {
  }

  /** A description that is present stays present: an empty one is sent as "", not null. */
  lemma EmptyDescriptionKept(f: OtherExpenseForm, freshId: string)
    requires OtherExpenseSchema(f) && f.description == Some("")
    ensures OtherExpensePayload(f, freshId).description == Some("")
  {
    assert Strings.IsBlank("");
  }

  /** The edit dialog's working copy: the expense being edited, with the amount as the
      number the input produced (which may be NaN). */
  datatype OtherDraft = OtherDraft(expense: OtherExpense, amount: Numbers.Num)

  const CategoryRequired: string := "Category is required."
  const AmountNotNumber: string := "Amount must be a number."
  const SaveFailed: string := "Failed to save. Check console for details."

  /** The checks of `handleSubmit`, in order: the message shown, or none when the draft
      may be saved. */
  function DraftError(d: OtherDraft): (r: Option<string>)
    ensures r == Some(CategoryRequired) <==> Strings.IsBlank(d.expense.category)
    ensures r == Some(AmountNotNumber) <==> !Strings.IsBlank(d.expense.category) && d.amount.NaN?
    ensures r.None? <==> !Strings.IsBlank(d.expense.category) && d.amount.Int?
  {
    if d.expense.category == "" || Strings.Trim(d.expense.category) == "" then Some(CategoryRequired)
    else if d.amount.NaN? then Some(AmountNotNumber)
    else None
  }

  /** `{ ...draft, amount: Number(draft.amount) }`: the expense handed to `onSave`. */
  function SavedExpense(d: OtherDraft): (e: OtherExpense)
    requires d.amount.Int?
    ensures e.id == d.expense.id && e.userId == d.expense.userId
    ensures e.category == d.expense.category && e.date == d.expense.date
    ensures e.description == d.expense.description && e.createdAt == d.expense.createdAt
    ensures Numbers.Int(e.amount) == d.amount
  {
    d.expense.(amount := d.amount.v)
  }

  /** The amount input: `value === "" ? 0 : Number(value)`. */
  function AmountOfInput(v: string): (n: Numbers.Num)
    ensures v == "" ==> n == Numbers.Int(0)
  {
    if v == "" then Numbers.Int(0) else Numbers.ToNumber(v)
  }

  /** The empty-input branch agrees with `Number("")`, which is 0 too. */
  lemma AmountOfInputIsNumber(v: string)
    ensures AmountOfInput(v) == Numbers.ToNumber(v)
  {
  }

  /** A draft opened from a stored expense and saved untouched gives that expense back. */
  lemma UntouchedDraftSaved(e: OtherExpense)
    requires !Strings.IsBlank(e.category)
    ensures DraftError(OtherDraft(e, Numbers.Int(e.amount))).None?
    ensures SavedExpense(OtherDraft(e, Numbers.Int(e.amount))) == e
  {
  }

  /** The edit dialog's state: the draft (null until an expense is opened), the saving flag
      and the error message. */
  class EditOtherExpenseDialog {
    var draft: Option<OtherDraft>
    var saving: bool
    var error: Option<string>

    constructor()
      ensures draft.None? && !saving && error.None?
    {
      draft := None;
      saving := false;
      error := None;
    }

    /** The open/close effect: opening with an expense copies it into the draft and clears
        the error; closing clears the draft, the saving flag and the error. */
    method Sync(open: bool, expense: Option<OtherExpense>)
      modifies this
      ensures open && expense.Some? ==>
        draft == Some(OtherDraft(expense.value, Numbers.Int(expense.value.amount))) &&
        saving == old(saving) && error.None?
      ensures open && expense.None? ==> draft == old(draft) && saving == old(saving) && error == old(error)
      ensures !open ==> draft.None? && !saving && error.None?
    {
      if open && expense.Some? {
        draft := Some(OtherDraft(expense.value, Numbers.Int(expense.value.amount)));
        error := None;
      }
      if !open {
        draft := None;
        saving := false;
        error := None;
      }
    }

    /** Typing in the category input. */
    method SetCategory(v: string)
      modifies this
      ensures old(draft).None? ==> draft.None?
      ensures old(draft).Some? ==>
        draft == Some(old(draft).value.(expense := old(draft).value.expense.(category := v)))
      ensures saving == old(saving) && error == old(error)
    {
      if draft.Some? {
        var d := draft.value;
        draft := Some(d.(expense := d.expense.(category := v)));
      }
    }

    /** Typing in the amount input. */
    method SetAmountInput(v: string)
      modifies this
      ensures old(draft).None? ==> draft.None?
      ensures old(draft).Some? ==> draft == Some(old(draft).value.(amount := AmountOfInput(v)))
      ensures saving == old(saving) && error == old(error)
    {
      if draft.Some? {
        draft := Some(draft.value.(amount := AmountOfInput(v)));
      }
    }

    /** Typing in the date input. Clearing it stores "", not null. */
    method SetDate(v: string)
      modifies this
      ensures old(draft).None? ==> draft.None?
      ensures old(draft).Some? ==>
        draft == Some(old(draft).value.(expense := old(draft).value.expense.(date := Some(v))))
      ensures saving == old(saving) && error == old(error)
    {
      if draft.Some? {
        var d := draft.value;
        draft := Some(d.(expense := d.expense.(date := Some(v))));
      }
    }

    /** Typing in the description input. Clearing it stores "", not null. */
    method SetDescription(v: string)
      modifies this
      ensures old(draft).None? ==> draft.None?
      ensures old(draft).Some? ==>
        draft == Some(old(draft).value.(expense := old(draft).value.expense.(description := Some(v))))
      ensures saving == old(saving) && error == old(error)
    {
      if draft.Some? {
        var d := draft.value;
        draft := Some(d.(expense := d.expense.(description := Some(v))));
      }
    }

    /** `handleSubmit`, with `save` the outcome of `onSave` (a failure is a throw). Returns
        the expense handed to `onSave`, if any, and whether the dialog asks to close. */
    method Submit(save: Outcome) returns (saved: Option<OtherExpense>, close: bool)
      modifies this
      ensures draft == old(draft)
      ensures old(draft).None? ==> saved.None? && !close && saving == old(saving) && error == old(error)
      ensures old(draft).Some? && DraftError(old(draft).value).Some? ==>
        saved.None? && !close && saving == old(saving) && error == DraftError(old(draft).value)
      ensures old(draft).Some? && DraftError(old(draft).value).None? ==>
        saved == Some(SavedExpense(old(draft).value)) && !saving &&
        (save.Ok? ==> close && error.None?) &&
        (save.Failed? ==> !close && error == Some(SaveFailed))
    {
      saved, close := None, false;
      if draft.None? {
        return;
      }
      var d := draft.value;
      var problem := DraftError(d);
      if problem.Some? {
        error := problem;
        return;
      }
      saving := true;
      error := None;
      saved := Some(SavedExpense(d));
      match save {
        case Ok =>
          close := true;
        case Failed(_) =>
          error := Some(SaveFailed);
      }
      saving := false;
    }
  }
}
