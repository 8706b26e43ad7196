/** The field checks that the zod schemas of the dialogs are given, and the string-to-value
    conversions the submit handlers apply once a schema has accepted the form. */
module Validators {
  import opened Base
  import Strings
  import Numbers
  import Types

  /** `!val` for an optional string field: absent or empty. */
  predicate Falsy(val: Option<string>) {
    val.None? || val.value == ""
  }

  /** `!Number.isNaN(Number(s)) && Number(s) >= 0`. */
  predicate IsNonNegativeNumber(s: string) {
    var n := Numbers.ToNumber(s);
    n.Int? && n.v >= 0
  }

  /** The optional salary field of the employee and salary-record schemas:
      `!val || (!Number.isNaN(Number(val)) && Number(val) >= 0)`. */
  predicate SalaryFieldValid(val: Option<string>) {
    Falsy(val) || IsNonNegativeNumber(val.value)
  }

  /** The salary-record date: `.min(10)` and then `^\d{4}-\d{2}-\d{2}$`. */
  predicate RecordDateValid(s: string) {
    |s| >= 10 && Types.IsIsoDate(s)
  }

  /** The length check adds nothing: the pattern alone fixes the length at 10. */
  lemma RecordDateIsPattern(s: string)
    ensures RecordDateValid(s) <==> Types.IsIsoDate(s)
  {
  }

  /** The optional other-expense date: `!val || /^\d{4}-\d{2}-\d{2}$/.test(val)`. */
  predicate OptionalDateValid(val: Option<string>) {
    Falsy(val) || Types.IsIsoDate(val.value)
  }

  /** The employee dialogs' salary conversion: null when the field is absent, blank or
      not a number, the parsed number otherwise. */
  function ParseSalary(val: Option<string>): (r: Option<int>)
    ensures r.Some? <==> val.Some? && !Strings.IsBlank(val.value) && Numbers.ToNumber(val.value).Int?
    ensures r.Some? ==> Numbers.ToNumber(val.value) == Numbers.Int(r.value)
  {
    if val.Some? && val.value != "" && Strings.Trim(val.value) != "" then
      var parsed := Numbers.ToNumber(val.value);
      if parsed.Int? then Some(parsed.v) else None
    else None
  }

  /** The salary dialogs' conversion, applied only to an accepted field:
      `values.salary && values.salary.trim() !== "" ? Number(values.salary) : null`. */
  function RecordBaseSalary(val: Option<string>): (r: Option<int>)
    requires SalaryFieldValid(val)
    ensures r.None? <==> val.None? || Strings.IsBlank(val.value)
    ensures r.Some? ==> r.value >= 0 && Numbers.ToNumber(val.value) == Numbers.Int(r.value)
  {
    if val.Some? && val.value != "" && Strings.Trim(val.value) != "" then
      Some(Numbers.ToNumber(val.value).v)
    else None
  }

  /** On an accepted field the two conversions agree and never give a negative salary. */
  lemma SalaryConversionsAgree(val: Option<string>)
    requires SalaryFieldValid(val)
    ensures ParseSalary(val) == RecordBaseSalary(val)
    ensures ParseSalary(val).Some? ==> ParseSalary(val).value >= 0
  {
  }

  /** How a stored salary is shown in an edit form:
      `typeof baseSalary === "number" ? String(baseSalary) : ""`. */
  function SalaryText(b: Option<int>): (s: string)
    ensures b.None? <==> s == ""
  {
    if b.Some? then Numbers.IntToString(b.value) else ""
  }

  /** Opening an edit form and submitting it untouched gives back the stored salary. */
  lemma SalaryTextRoundTrip(b: Option<int>)
    ensures ParseSalary(Some(SalaryText(b))) == b
  {
    if b.Some? {
      Numbers.NumberOfString(b.value);
      Numbers.IntToStringShape(b.value);
    }
  }

  /** The prefilled salary passes the schema exactly when the stored salary is null or
      non-negative. */
  lemma SalaryTextAccepted(b: Option<int>)
    ensures SalaryFieldValid(Some(SalaryText(b))) <==> b.None? || b.value >= 0
  {
    if b.Some? {
      Numbers.NumberOfString(b.value);
    }
  }
}
