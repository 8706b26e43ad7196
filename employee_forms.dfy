/** The employee dialogs: the add and edit forms with their schema, salary and role
    conversions and prefill, and the delete dialog's typed-name confirmation. */
module EmployeeForms {
  import opened Base
  import opened Types
  import Strings
  import Numbers
  import Validators

  /** The add and edit forms' field values: every field is kept as text. */
  datatype EmployeeForm = EmployeeForm(name: string, role: Option<string>, baseSalary: Option<string>)

  /** `formSchema` of both dialogs: a name of at least one character and a salary that is
      empty or a non-negative number; the role is free. */
  predicate EmployeeSchema(f: EmployeeForm) {
    |f.name| >= 1 && Validators.SalaryFieldValid(f.baseSalary)
  }

  /** `values.role || undefined`: an empty or missing role is dropped. */
  function RoleOf(role: Option<string>): (r: Option<string>)
    ensures r.None? <==> Validators.Falsy(role)
    ensures r.Some? ==> r == role
  {
    if role.Some? && role.value != "" then role else None
  }

  /** The employee the add dialog hands to `onAdd`: a fresh id, the name as typed, the
      role unless empty, and the salary parsed (null when blank or not a number). */
  function NewEmployee(f: EmployeeForm, freshId: string): (e: Employee)
    ensures e.id == freshId && e.name == f.name
    ensures e.role.None? <==> Validators.Falsy(f.role)
    ensures e.role.Some? ==> e.role == f.role
    ensures e.baseSalary.None? <==>
      f.baseSalary.None? || Strings.IsBlank(f.baseSalary.value) || Numbers.ToNumber(f.baseSalary.value).NaN?
    ensures e.baseSalary.Some? ==> Numbers.ToNumber(f.baseSalary.value) == Numbers.Int(e.baseSalary.value)
  {
    Employee(freshId, f.name, RoleOf(f.role), Validators.ParseSalary(f.baseSalary))
  }

  /** An accepted form never yields a negative salary or an empty name. */
  lemma NewEmployeeAccepted(f: EmployeeForm, freshId: string)
    requires EmployeeSchema(f)
    ensures |NewEmployee(f, freshId).name| >= 1
    ensures NewEmployee(f, freshId).baseSalary.Some? ==> NewEmployee(f, freshId).baseSalary.value >= 0
  {
    Validators.SalaryConversionsAgree(f.baseSalary);
  }

  /** The edit dialog's `handleSubmit`: `{ ...employee, name, role, baseSalary }`. */
  function EditedEmployee(e: Employee, f: EmployeeForm): (r: Employee)
    ensures r.id == e.id
    ensures r.name == f.name && r.role == RoleOf(f.role)
    ensures r.baseSalary == Validators.ParseSalary(f.baseSalary)
  {
    e.(name := f.name, role := RoleOf(f.role), baseSalary := Validators.ParseSalary(f.baseSalary))
  }

  /** Editing is adding under the old id: the conversions are the add dialog's. */
  lemma EditedIsNewUnderOldId(e: Employee, f: EmployeeForm)
    ensures EditedEmployee(e, f) == NewEmployee(f, e.id)
  {
  }

  /** The edit form's prefill: the name, `role ?? ""`, and the salary as text or "". */
  function PrefillEmployee(e: Employee): (f: EmployeeForm)
    ensures f.name == e.name
    ensures e.role.None? ==> f.role == Some("")
    ensures e.role.Some? ==> f.role == e.role
    ensures f.baseSalary == Some(Validators.SalaryText(e.baseSalary))
  {
    EmployeeForm(e.name, Some(e.role.GetOr("")), Some(Validators.SalaryText(e.baseSalary)))
  }

  /** The form the edit dialog shows: none without an employee. */
  function ShownForm(employee: Option<Employee>): (r: Option<EmployeeForm>)
    ensures r.None? <==> employee.None?
    ensures r.Some? ==> r.value == PrefillEmployee(employee.value)
  {
    if employee.Some? then Some(PrefillEmployee(employee.value)) else None
  }

  /** Opening the edit dialog and saving untouched gives back the stored employee, except
      that a stored empty role comes back absent. */
  lemma UntouchedEditRoundTrip(e: Employee)
    ensures e.role != Some("") ==> EditedEmployee(e, PrefillEmployee(e)) == e
    ensures e.role == Some("") ==> EditedEmployee(e, PrefillEmployee(e)) == e.(role := None)
  {
    Validators.SalaryTextRoundTrip(e.baseSalary);
  }

  /** The prefilled form passes the schema exactly when the name is non-empty and the
      stored salary is null or non-negative. */
  lemma PrefillAccepted(e: Employee)
    ensures EmployeeSchema(PrefillEmployee(e)) <==> |e.name| >= 1 && (e.baseSalary.None? || e.baseSalary.value >= 0)
  {
    Validators.SalaryTextAccepted(e.baseSalary);
  }

  /** The comparison key of the delete confirmation: trimmed, then lower-cased. */
  function NameKey(s: string): string {
    Strings.ToLower(Strings.Trim(s))
  }

  /** `isMatch`: the typed name equals the employee's name up to surrounding white space
      and letter case. */
  predicate IsMatch(confirmName: string, name: string) {
    NameKey(confirmName) == NameKey(name)
  }

  /** Spaces typed around the name do not change whether it matches. */
  lemma TrimmedEntryMatches(c: string, name: string)
    ensures IsMatch(Strings.Trim(c), name) <==> IsMatch(c, name)
  {
    Strings.TrimIdempotent(c);
  }

  /** Nor does the letter case of the typed name. */
  lemma LowerEntryMatches(c: string, name: string)
    ensures IsMatch(Strings.ToLower(c), name) <==> IsMatch(c, name)
  {
    assert NameKey(Strings.ToLower(c)) == NameKey(c) by {
      Strings.LowerCommutesWithTrim(c);
      Strings.LowerIdempotent(Strings.Trim(c));
    }
  }

  /** A blank name is confirmed only by a blank entry. */
  lemma BlankNameMatch(c: string, name: string)
    requires Strings.IsBlank(name)
    ensures IsMatch(c, name) <==> Strings.IsBlank(c)
  {
    if IsMatch(c, name) {
      assert |Strings.ToLower(Strings.Trim(c))| == |Strings.Trim(c)|;
    }
  }

  /** The delete dialog's typed confirmation. */
  class DeleteEmployeeDialog {
    var confirmName: string

    constructor()
      ensures confirmName == ""
    {
      confirmName := "";
    }

    /** The effect run when the dialog opens. */
    method Open()
      modifies this
      ensures confirmName == ""
    {
      confirmName := "";
    }

    /** Typing in the confirmation input. */
    method Type(v: string)
      modifies this
      ensures confirmName == v
    {
      confirmName := v;
    }

    /** `handleDelete`: the id handed to `onConfirmDelete`, if any, and whether the dialog
        asks to close. Without an employee nothing is rendered and nothing is deleted. */
    method HandleDelete(employee: Option<Employee>) returns (deleted: Option<string>, close: bool)
      ensures deleted.Some? <==> employee.Some? && IsMatch(confirmName, employee.value.name)
      ensures deleted.Some? ==> deleted.value == employee.value.id
      ensures close <==> deleted.Some?
    {
      if employee.None? || !IsMatch(confirmName, employee.value.name) {
        return None, false;
      }
      return Some(employee.value.id), true;
    }
  }
}
