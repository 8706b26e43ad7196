# Salary tracker: a Dafny model of its list logic

The salary tracker is a web client for a small business. It keeps a roster of
employees, one salary record per employee and month, and company-wide ("other")
expenses in a hosted database. Under the asynchronous I/O and the rendering there
is a layer of deterministic list logic. This project models that layer and proves
what it is meant to do:

- **Salary-record dialogs** (`SalaryRecordForm`). These cover expense drafts with
  the `canAddExpense` guard, remove-by-id, the preview totals and the submit
  normaliser. The normaliser builds a `SalaryRecord` with
  `totalExpenses = Σ amount` and `grandTotal = (baseSalary ?? 0) + totalExpenses`.
  The edit dialog's prefill keeps the record's id.
- **Period aggregation.** `Dashboard` covers the current-year totals, the 12-month
  chart, lifetime totals per employee and the top-3 ranking. `MonthLabels` covers
  `formatMonthYear` and the group headings. `OtherExpenses` covers month grouping,
  the newest-first order, the open/closed toggles and the dd/mm/yyyy column.
- **In-memory collection updates** after each remote call. These are append,
  replace-by-id, filter-by-id, the cascading employee delete, and the join of
  expense rows onto record rows (`Lists`, `RecordJoin`, and the page classes
  `Dashboard.DashboardState`, `OtherExpenses.OtherExpensesPage` and
  `EmployeePages.EmployeeDetailPage`).
- **Form validators and normalisers** (`Validators`, `EmployeeForms`,
  `ExpenseDialogs`). These cover the zod predicates, blank-to-null conversions,
  the trimmed and case-insensitive name match that gates an employee delete, and
  the edit-other-expense dialog's draft.
- **The employee detail pages** (`EmployeePages`). These cover the id taken from
  the URL path, loading with each of its error paths, the totals, and the record
  save and delete.

Supporting modules:

- `Base` holds the option type and the outcomes of remote calls.
- `Strings` models ASCII `trim` and `toLowerCase`.
- `Numbers` models JavaScript's `Number(string)` over integers, `String(n)` and
  `padStart(2, "0")`.
- `Types` holds the entities and their sums.

Components that the source writes as state changed step by step are Dafny classes
whose methods state their whole new state. This covers the dialogs, the pages and
the dashboard. The loops of the source are methods with loop invariants, each
proved against a recursive function:

- the dashboard aggregation (`Dashboard.Aggregate`);
- the expense grouping by record (`RecordJoin.GroupByRecord`);
- the month grouping (`OtherExpenses.GroupByMonth`).

Everything else is a function with lemmas about it.

Calls into the database are inputs to the model, never performed:

- an `Outcome` (success, or failure with a message) for a write;
- a `Fetch` (rows, or an error) for a query;
- a `Written` value for an insert that returns its row;
- a `Single` value for the query that loads one employee.

The current year, today's date, the parse of stored dates (`Calendar`) and fresh ids
are parameters too.

## Model

| member | source | states |
|---|---|---|
| Base.SignedIn | components/dashboard/dashboard.tsx:68 | `!userId` is false: the id is present and not empty. Every handler guarded by `if (!userId) return;` tests this |
| Types.SumGrandTotalsConcat | lib/types.ts:23 | the sum of grand totals over two lists concatenated is the sum of the two sums |
| Types.SumAmountsConcat | lib/types.ts:8-13 | the sum of expense amounts is additive over concatenation |
| Types.SumOtherAmountsConcat | app/other_expenses/page.tsx:274-276 | the page total is additive over concatenation |
| Types.GrandTotalsSplit | lib/types.ts:20-23 | when every record has grandTotal = (baseSalary ?? 0) + totalExpenses, Σ grandTotal = Σ salary + Σ totalExpenses |
| Types.SalaryOrZero | lib/types.ts:20 | `baseSalary ?? 0`. No contract of its own; GrandTotalsSplit and BuildRecord use it for the grand total |
| Types.IsIsoDate | components/salary/add-salary-record-dialog.tsx:35 | the `^\d{4}-\d{2}-\d{2}$` pattern. Validators.RecordDateIsPattern shows it is the whole date check |
| Types.ExpenseDateWellFormed | lib/types.ts:12 | the shape the type's comment describes: a salary expense's date is an ISO date or "". Not enforced by the source (see Left out) |
| Types.SumAmounts | components/salary/add-salary-record-dialog.tsx:154-157 | Σ amount. Additive by SumAmountsConcat; equal to the preview by SalaryRecordForm.PreviewIsStoredTotal |
| Types.SumGrandTotals | components/employees/employee-specific-detail-page-client.tsx:142-145 | `totalPaid`, Σ grandTotal. Additive by SumGrandTotalsConcat; updated by EmployeePages.PaidAfterDelete and PaidAfterSave |
| Types.SumTotalExpenses | components/employees/employee-specific-detail-page-client.tsx:147-150 | `totalExpenses`, Σ totalExpenses. Related to Σ grandTotal by GrandTotalsSplit |
| Types.SumBaseSalaries | lib/types.ts:20 | Σ (baseSalary ?? 0), the salary part of GrandTotalsSplit |
| Types.SumOtherAmounts | app/other_expenses/page.tsx:274-276 | the page total Σ amount. Additive by SumOtherAmountsConcat; conserved by OtherExpenses.GroupTotalsConserved |
| Types.TotalsConsistent | lib/types.ts:22-23 | the record invariant totalExpenses = Σ amount and grandTotal = (baseSalary ?? 0) + totalExpenses. SalaryRecordForm.BuildRecord ensures it |
| Types.MonthInRange | lib/types.ts:19 | the month lies in 1..12. Not enforced by any builder; Dashboard.ChartSumIsYearTotal takes it as a precondition |
| Strings.TrimStart | components/employees/delete-employee-dialog.tsx:38-39 | the result is a suffix of the input, starts with a non-space, and only spaces were dropped |
| Strings.TrimEnd | components/employees/delete-employee-dialog.tsx:38-39 | the result is a prefix of the input, ends with a non-space, and only spaces were dropped |
| Strings.Trim | components/salary/add-salary-record-dialog.tsx:109-110 | the result is no longer than the input, has no space at either end, and is empty exactly when the input is blank |
| Strings.TrimOfTrimmed | components/expenses/add-other-expenses-dialog.tsx:80 | a string with no space at either end is its own trim |
| Strings.TrimIdempotent | components/expenses/add-other-expenses-dialog.tsx:80 | trimming twice is trimming once |
| Strings.TrimDropsLeadingSpace | components/salary/add-salary-record-dialog.tsx:109-110 | a leading space does not change the trim |
| Strings.TrimDropsTrailingSpace | components/salary/add-salary-record-dialog.tsx:109-110 | a trailing space after a non-space start does not change the trim |
| Strings.Take | app/other_expenses/page.tsx:96 | `slice(0, n)`: the first min(n, length) characters |
| Strings.LowerChar | components/employees/delete-employee-dialog.tsx:38-39 | upper-case ASCII letters move down by 32, every other character is kept |
| Strings.ToLower | components/employees/delete-employee-dialog.tsx:38-39 | the length is kept and every character is lowered in place |
| Strings.LowerHasNoUpper | components/employees/delete-employee-dialog.tsx:38-39 | a lowered string has no upper-case letter |
| Strings.LowerIdempotent | components/employees/delete-employee-dialog.tsx:38-39 | lowering twice is lowering once |
| Strings.LowerKeepsSpace | components/employees/delete-employee-dialog.tsx:38-39 | lowering neither creates nor removes white space |
| Strings.LowerCommutesWithTrimStart | components/employees/delete-employee-dialog.tsx:38-39 | lowering then trimming the start equals trimming the start then lowering |
| Strings.LowerCommutesWithTrimEnd | components/employees/delete-employee-dialog.tsx:38-39 | the same for the end |
| Strings.LowerCommutesWithTrim | components/employees/delete-employee-dialog.tsx:38-39 | the order of `trim()` and `toLowerCase()` does not matter |
| Strings.IsBlank | components/salary/add-salary-record-dialog.tsx:132 | `s.trim() === ""`. Strings.Trim ensures the trim is empty exactly for a blank string |
| Numbers.DigitChar | app/other_expenses/page.tsx:22 | the character of a digit value is a digit with that value |
| Numbers.DigitsValueBound | app/other_expenses/page.tsx:22 | a digit string of length n is worth less than 10^n |
| Numbers.ToNumberIsParseOfTrim | components/salary/add-salary-record-dialog.tsx:111 | `Number(s)` parses the trimmed string |
| Numbers.ToNumberShape | components/salary/add-salary-record-dialog.tsx:111-112 | a blank string is 0; a trimmed digit string is its decimal value; any other number has a sign or digit first |
| Numbers.NatToString | components/salary/edit-salary-record-dialog.tsx:103 | `String(n)` of a natural is digits whose value is n, with no leading zero |
| Numbers.IntToString | components/salary/edit-salary-record-dialog.tsx:103 | `String(n)` is non-empty; a negative number gets a minus sign before the digits of -n |
| Numbers.IntToStringShape | components/salary/edit-salary-record-dialog.tsx:103 | `String(n)` starts with a digit or '-' and is not blank |
| Numbers.NumberOfString | components/salary/edit-salary-record-dialog.tsx:111 | `Number(String(n)) == n` |
| Numbers.Pad2 | app/other_expenses/page.tsx:22 | `PAD2`: 0..9 become '0' and the digit; any other number prints as `String(n)`; the result has at least two characters |
| Numbers.Pad2Length | app/other_expenses/page.tsx:22 | for 0..99 the padded text has exactly two characters |
| Numbers.NumberOfPad2 | app/other_expenses/page.tsx:22 | the padded text reads back as the number |
| Numbers.ToNumber | components/salary/add-salary-record-dialog.tsx:111 | `Number(s)`. Specified by ToNumberIsParseOfTrim (it parses the trimmed text), ToNumberShape and NumberOfString |
| Numbers.ParseLiteral | components/salary/add-salary-record-dialog.tsx:111 | `Number` of already trimmed text: "" is 0, an optional sign and decimal digits give their value, anything else is NaN. ToNumberShape states the cases |
| Lists.RemoveByKey | components/dashboard/dashboard.tsx:139-140 | filter-by-key: nothing with the key is left, everything else is kept, nothing is added |
| Lists.RemoveByKeyConcat | components/dashboard/dashboard.tsx:352 | filtering distributes over concatenation, so the order of the kept elements is the input order |
| Lists.RemoveByKeyAbsent | app/other_expenses/page.tsx:221 | filtering an absent key changes nothing |
| Lists.RemoveByKeyIdempotent | app/other_expenses/page.tsx:221 | filtering twice by the same key is filtering once |
| Lists.RemoveByKeyLength | components/salary/add-salary-record-dialog.tsx:126-128 | the length drops by exactly the number of elements with the key |
| Lists.ReplaceById | app/other_expenses/page.tsx:204-206 | `map(x => x.id === u.id ? u : x)`: the length is kept, matching positions hold u, the others are unchanged |
| Lists.ReplaceKeepsIds | components/dashboard/dashboard.tsx:319-321 | replacing keeps the id at every position |
| Lists.ReplaceAbsent | components/dashboard/dashboard.tsx:319-321 | replacing an absent id changes nothing |
| Lists.RemoveAfterReplace | components/dashboard/dashboard.tsx:319-321 | deleting an id after saving it is the same as deleting it |
| Lists.ReplaceIdempotent | app/other_expenses/page.tsx:204-206 | saving the same value twice is saving it once |
| Validators.RecordDateIsPattern | components/salary/add-salary-record-dialog.tsx:30-36 | the record date's `min(10)` plus `^\d{4}-\d{2}-\d{2}$` accepts exactly the pattern |
| Validators.ParseSalary | components/employees/add-employee-dialog.tsx:66-73 | null when the salary is absent, blank or not a number; otherwise the number, agreeing with `Number()` |
| Validators.RecordBaseSalary | components/salary/add-salary-record-dialog.tsx:131-134 | on an accepted field: null exactly when absent or blank, otherwise a non-negative number equal to `Number(value)` |
| Validators.SalaryConversionsAgree | components/salary/add-salary-record-dialog.tsx:37-43 | on fields the schema accepts, the employee and salary-record conversions agree and give no negative salary |
| Validators.SalaryText | components/employees/edit-employee-dialog.tsx:69-72 | the prefilled salary text is "" exactly when there is no salary |
| Validators.SalaryTextRoundTrip | components/employees/edit-employee-dialog.tsx:69-87 | parsing the prefilled salary text gives back the stored salary |
| Validators.SalaryTextAccepted | components/employees/edit-employee-dialog.tsx:30-36 | the prefilled salary passes the schema exactly when it is null or non-negative |
| Validators.Falsy | components/employees/add-employee-dialog.tsx:36 | `!val` for an optional string: absent or "". EmployeeForms.RoleOf and the schemas use it |
| Validators.IsNonNegativeNumber | components/salary/add-salary-record-dialog.tsx:41 | `!Number.isNaN(Number(s)) && Number(s) >= 0`. RecordBaseSalary and ExpenseDialogs.OtherExpensePayload derive the non-negative amount from it |
| Validators.SalaryFieldValid | components/salary/add-salary-record-dialog.tsx:37-43 | the salary refine: empty, or a non-negative number. SalaryConversionsAgree and SalaryTextAccepted are stated over it |
| Validators.RecordDateValid | components/salary/add-salary-record-dialog.tsx:30-36 | `min(10)` plus the date pattern. RecordDateIsPattern reduces it to the pattern |
| Validators.OptionalDateValid | components/expenses/add-other-expenses-dialog.tsx:35-38 | the other-expense date: empty, or the pattern. ExpenseDialogs.OtherExpensePayload keeps only such dates |
| MonthLabels.MonthLabel | components/employees/employee-detail-client.tsx:59 | `names[month - 1] ?? String(month)`: the three-letter name for 1..12; otherwise exactly `String(month)`, which reads back as the month |
| MonthLabels.GroupLabel | app/other_expenses/page.tsx:143 | a group heading is "<Mon> <year>" for 1..12 and "undefined <year>" otherwise |
| MonthLabels.IntToStringInjective | components/dashboard/dashboard.tsx:234 | different numbers print differently |
| MonthLabels.IntToStringNoSpace | components/dashboard/dashboard.tsx:234 | a printed number has no space |
| MonthLabels.MonthNamesReadBack | components/dashboard/dashboard.tsx:219-232 | each month name is capitalised, has no space and reads back as its month |
| MonthLabels.MonthLabelInjective | components/dashboard/dashboard.tsx:233 | different months get different labels |
| MonthLabels.SplitAtSpace | components/dashboard/dashboard.tsx:234 | "a b" splits back into a and b when neither holds a space |
| MonthLabels.FormatMonthYearInjective | components/dashboard/dashboard.tsx:218-235 | `formatMonthYear` never gives the same text to two different (month, year) pairs |
| MonthLabels.FormatMonthYearReadBack | components/employees/employee-specific-detail-page-client.tsx:152-169 | the text is the label, a space and the year; the label is Jan..Dec for 1..12 and reads back as the month otherwise |
| MonthLabels.GroupLabelAgainstFormat | app/other_expenses/page.tsx:143 | the group heading equals `formatMonthYear` for 1..12 and differs from it otherwise |
| MonthLabels.FormatMonthYear | components/dashboard/dashboard.tsx:218-235 | `${label} ${year}`. Specified by FormatMonthYearReadBack (label, one space, year) and FormatMonthYearInjective |
| SalaryRecordForm.PeriodOfDate | components/salary/add-salary-record-dialog.tsx:136-139 | year and month read from the digits of an accepted `YYYY-MM-DD` date lie in 0..9999 and 0..99. A month of 00 or 13..99 is kept as its digits, where the source gets NaN (see Left out) |
| SalaryRecordForm.NormaliseOne | components/salary/add-salary-record-dialog.tsx:142-151 | a draft is dropped exactly when its amount is NaN |
| SalaryRecordForm.NormaliseExpenses | components/salary/add-salary-record-dialog.tsx:141-152 | normalising never adds expenses |
| SalaryRecordForm.NormaliseConcat | components/salary/add-salary-record-dialog.tsx:141-152 | normalisation distributes over concatenation, so order is kept |
| SalaryRecordForm.NormaliseAllParsable | components/salary/edit-salary-record-dialog.tsx:188-199 | when every amount parses, nothing is dropped and each expense keeps id, category, date and parsed amount |
| SalaryRecordForm.AddedExpenseKept | components/salary/add-salary-record-dialog.tsx:108-124 | a draft that passes `canAddExpense` survives normalisation as the last expense, with a non-negative amount |
| SalaryRecordForm.NormaliseRemove | components/salary/add-salary-record-dialog.tsx:126-128 | removing a draft by id and then normalising is normalising and then removing that id |
| SalaryRecordForm.PreviewIsStoredTotal | components/salary/add-salary-record-dialog.tsx:98-102 | the preview's expense total, which skips NaN, is the sum of the normalised amounts |
| SalaryRecordForm.PreviewSalaryIsStored | components/salary/add-salary-record-dialog.tsx:104 | on an accepted field the preview salary is the stored salary, or 0 |
| SalaryRecordForm.PreviewMatchesRecord | components/salary/add-salary-record-dialog.tsx:106 | the preview grand total equals the submitted record's grandTotal |
| SalaryRecordForm.BuildRecord | components/salary/add-salary-record-dialog.tsx:130-169 | the record has consistent totals, the given id, employee and date, the date's period, a salary null exactly when blank and otherwise ≥ 0, and the normalised expenses |
| SalaryRecordForm.SubmitAdd | components/salary/add-salary-record-dialog.tsx:159-171 | a record is produced exactly when the schema accepts; it has the fresh id and consistent totals |
| SalaryRecordForm.SubmitEdit | components/salary/edit-salary-record-dialog.tsx:206-218 | a record is produced exactly when there is a record and the schema accepts; it keeps `record.id` |
| SalaryRecordForm.PrefillForm | components/salary/edit-salary-record-dialog.tsx:94-105 | the prefill keeps the employee; the date is the record's first ten characters, or today when the record has no date; the salary text is "" exactly when the stored salary is null |
| SalaryRecordForm.PrefillOne | components/salary/edit-salary-record-dialog.tsx:108-113 | an expense is copied with its id, category and date, and with an amount text that reads back as its amount |
| SalaryRecordForm.PrefillExpenses | components/salary/edit-salary-record-dialog.tsx:107-114 | one draft per expense |
| SalaryRecordForm.PrefilledDraftKept | components/salary/edit-salary-record-dialog.tsx:188-199 | a prefilled draft normalises back to its expense |
| SalaryRecordForm.PrefillExpensesRoundTrip | components/salary/edit-salary-record-dialog.tsx:107-199 | normalising the prefilled drafts gives back the record's expenses |
| SalaryRecordForm.UntouchedEditRoundTrip | components/salary/edit-salary-record-dialog.tsx:94-218 | a record that carries its `YYYY-MM-DD` date, as the salary dialogs build it, with consistent totals and a salary null or non-negative, saves back unchanged when opened and left untouched. Loaded records have no date: see UntouchedEditOfLoadedRecord |
| SalaryRecordForm.SalaryRecordDialog.constructor | components/salary/add-salary-record-dialog.tsx:84 | the dialog starts blank with no expenses |
| SalaryRecordForm.SalaryRecordDialog.EditForm | components/salary/add-salary-record-dialog.tsx:28-44 | typing in the form changes only the form |
| SalaryRecordForm.SalaryRecordDialog.EditDraft | components/salary/add-salary-record-dialog.tsx:77-83 | typing in the draft changes only the draft |
| SalaryRecordForm.SalaryRecordDialog.AddExpense | components/salary/add-salary-record-dialog.tsx:114-124 | a rejected draft changes nothing; an accepted draft is appended once under the fresh id and the draft is emptied |
| SalaryRecordForm.SalaryRecordDialog.RemoveExpense | components/salary/add-salary-record-dialog.tsx:126-128 | the entries with that id are removed and nothing else changes |
| SalaryRecordForm.SalaryRecordDialog.Close | components/salary/edit-salary-record-dialog.tsx:119-128 | closing clears the list and the draft and resets the form to today |
| SalaryRecordForm.SalaryRecordDialog.Open | components/salary/edit-salary-record-dialog.tsx:94-117 | opening with a record prefills the form and the expense list and empties the draft; with no record nothing changes |
| SalaryRecordForm.PeriodOfDateReadsDigits | components/salary/add-salary-record-dialog.tsx:136-139 | year and month are the numbers the date's digits spell, even for an impossible month such as 13 |
| SalaryRecordForm.BlankForm | components/salary/add-salary-record-dialog.tsx:86-96 | the reset form: no employee, today's date, an empty salary. SalaryRecordDialog.Close ensures the dialog returns to it |
| SalaryRecordForm.RecordSchema | components/salary/add-salary-record-dialog.tsx:28-44 | `recordSchema`: an employee, a valid date, a valid salary. SubmitAdd and SubmitEdit produce a record exactly when it holds |
| SalaryRecordForm.CanAddExpense | components/salary/add-salary-record-dialog.tsx:108-112 | `canAddExpense`: category and amount not blank, amount a non-negative number. SalaryRecordDialog.AddExpense and AddedExpenseKept are stated over it |
| SalaryRecordForm.PreviewExpenseTotal | components/salary/add-salary-record-dialog.tsx:98-102 | the NaN-skipping `reduce`. PreviewIsStoredTotal equates it to the stored Σ amount |
| SalaryRecordForm.PreviewSalary | components/salary/add-salary-record-dialog.tsx:104 | `salary ? Number(salary) : 0`. PreviewSalaryIsStored equates it to the stored salary or 0 |
| SalaryRecordForm.PreviewGrandTotal | components/salary/add-salary-record-dialog.tsx:106 | salary plus expenses as previewed. PreviewMatchesRecord equates it to the record's grandTotal |
| SalaryRecordForm.UntouchedEditOfLoadedRecord | components/salary/edit-salary-record-dialog.tsx:94-218 | a loaded record has no date, so an untouched save keeps id, employee, salary and expenses but takes today's date and period, and changes the record when that period differs |
| RecordJoin.ExpenseOfRow | components/dashboard/dashboard.tsx:423-428 | an expense row keeps its fields; a missing date becomes "" |
| RecordJoin.GroupByRecord | components/dashboard/dashboard.tsx:417-429 | the `forEach` builds, per record id, exactly the matching expenses in fetch order, and no empty entry |
| RecordJoin.RecordOfRow | components/dashboard/dashboard.tsx:432-441 | a record row keeps every field and receives the given expenses |
| RecordJoin.AttachExpenses | components/dashboard/dashboard.tsx:432-441 | one record per row, in row order, each given the lookup of its id (empty when missing) |
| RecordJoin.Joined | components/employees/employee-specific-detail-page-client.tsx:267-290 | each record gets exactly the expenses whose record id matches, in fetch order |
| RecordJoin.JoinRecords | components/dashboard/dashboard.tsx:417-441 | the grouping loop plus the map give the joined records |
| RecordJoin.ExpensesForExact | components/dashboard/dashboard.tsx:417-441 | a record receives as many expenses as there are matching rows, and exactly the expenses of those rows |
| RecordJoin.ExpensesForNone | components/dashboard/dashboard.tsx:440 | a record with no matching row gets `[]` |
| RecordJoin.ExpensesFor | components/dashboard/dashboard.tsx:417-429 | the expenses of one record id in fetch order. ExpensesForExact and ExpensesForNone state its contents; GroupByRecord is proved against it |
| RecordJoin.Lookup | components/dashboard/dashboard.tsx:440 | `expensesByRecord[row.id] ?? []`. GroupByRecord ensures it equals ExpensesFor for every id |
| Dashboard.Aggregate | components/dashboard/dashboard.tsx:476-495 | the loop's salary and expense totals count the current year only; monthly totals are keyed by current-year months; per-employee totals cover all years |
| Dashboard.OtherYearsIgnored | components/dashboard/dashboard.tsx:485 | a record from another year changes no current-year total |
| Dashboard.YearTotalsSplit | components/dashboard/dashboard.tsx:482-495 | with consistent records the year's salary plus expenses equals the year's grand total |
| Dashboard.EmployeeTotalsOfOne | components/dashboard/dashboard.tsx:493-494 | an employee's total over their own records is the sum of their grand totals |
| Dashboard.MonthTotalEmpty | components/dashboard/dashboard.tsx:517 | a month with no records totals 0 |
| Dashboard.Chart | components/dashboard/dashboard.tsx:512-519 | the series has the requested length |
| Dashboard.ChartPoints | components/dashboard/dashboard.tsx:512-519 | entry i is labelled `monthNames[i]` and holds month i+1's total, or 0 |
| Dashboard.MonthlyChartShape | components/dashboard/dashboard.tsx:512-519 | the chart has exactly 12 entries labelled Jan..Dec, each the month's total of current-year records |
| Dashboard.ChartSumIsMonthsSum | components/dashboard/dashboard.tsx:512-519 | the chart entries sum to the sum of the month totals |
| Dashboard.MonthsSumStep | components/dashboard/dashboard.tsx:490 | adding one record adds its grand total to exactly its month's bucket |
| Dashboard.MonthsSumOfNone | components/dashboard/dashboard.tsx:479 | with no records every bucket is 0 |
| Dashboard.MonthsSumIsYearTotal | components/dashboard/dashboard.tsx:485-490 | with current-year months in 1..12, the 12 buckets sum to the year's grand total |
| Dashboard.ChartSumIsYearTotal | components/dashboard/dashboard.tsx:512-519 | with months in 1..12 the chart sums to Σ grandTotal of current-year records |
| Dashboard.EmployeeTotals | components/dashboard/dashboard.tsx:521-526 | one row per employee, in roster order, with the employee's total or 0 |
| Dashboard.PositiveRows | components/dashboard/dashboard.tsx:529 | the filter keeps exactly the rows with a positive total, each as often as before |
| Dashboard.WithTotalConcat | components/dashboard/dashboard.tsx:530 | the rows with a given total distribute over concatenation |
| Dashboard.WithTotalNone | components/dashboard/dashboard.tsx:530 | no row has a total that nobody has |
| Dashboard.InsertPermutes | components/dashboard/dashboard.tsx:530 | inserting adds exactly one row |
| Dashboard.InsertSorted | components/dashboard/dashboard.tsx:530 | inserting into a non-increasing list keeps it non-increasing |
| Dashboard.WithTotalSingle | components/dashboard/dashboard.tsx:530 | a single row has a given total or not |
| Dashboard.InsertStable | components/dashboard/dashboard.tsx:530 | inserting places the new row after every row of equal total |
| Dashboard.SortDescCorrect | components/dashboard/dashboard.tsx:530 | the sort is non-increasing, a permutation, and stable: rows of equal total keep their order |
| Dashboard.SortedPositive | components/dashboard/dashboard.tsx:528-530 | the filtered and sorted rows are positive, non-increasing, and a permutation of the positive rows |
| Dashboard.Take3OfSorted | components/dashboard/dashboard.tsx:531 | `slice(0, 3)` of a sorted list is at most 3 rows, a sorted prefix |
| Dashboard.TopEmployeesCorrect | components/dashboard/dashboard.tsx:528-531 | the top list has at most 3 rows, all positive, non-increasing, and a prefix of the stable sort |
| Dashboard.TopEmployeesComplete | components/dashboard/dashboard.tsx:528-531 | when fewer than 3 are shown, every employee with a positive total is shown |
| Dashboard.DashboardState.constructor | components/dashboard/dashboard.tsx:359-385 | the dashboard starts with no employees and no records |
| Dashboard.DashboardState.LoadEmployees | components/dashboard/dashboard.tsx:359-385 | fetched rows replace the roster; without a signed-in user (missing or empty id), or on an error, nothing changes |
| Dashboard.DashboardState.AddEmployee | components/dashboard/dashboard.tsx:67-96 | a successful insert appends the employee; otherwise nothing changes |
| Dashboard.DashboardState.SaveEmployee | components/dashboard/dashboard.tsx:98-129 | a successful update replaces by id; otherwise nothing changes |
| Dashboard.DashboardState.ConfirmDelete | components/dashboard/dashboard.tsx:131-141 | a successful delete removes the employee and every record of theirs, and keeps records referring to the roster |
| Dashboard.DashboardState.AddRecord | components/dashboard/dashboard.tsx:143-184 | a failed record insert changes nothing; otherwise the record is appended once, even when the expense insert fails |
| Dashboard.DashboardState.SaveRecord | components/dashboard/dashboard.tsx:257-322 | when every step succeeds the record is replaced by id; without a signed-in user (missing or empty id) or on any failure nothing changes |
| Dashboard.DashboardState.ConfirmDeleteRecord | components/dashboard/dashboard.tsx:324-353 | both deletes succeeding filters the record out; otherwise nothing changes |
| Dashboard.DashboardState.LoadRecords | components/dashboard/dashboard.tsx:390-444 | both queries succeeding sets the joined records; otherwise nothing changes |
| Dashboard.CascadeKeepsReferences | components/dashboard/dashboard.tsx:139-140 | after the cascade every remaining record still refers to a remaining employee |
| Dashboard.YearSalary | components/dashboard/dashboard.tsx:483-486 | Σ (baseSalary ?? 0) over current-year records. The loop of Aggregate is proved against it; OtherYearsIgnored and YearTotalsSplit are about it |
| Dashboard.YearExpenses | components/dashboard/dashboard.tsx:487 | Σ totalExpenses over current-year records, as above |
| Dashboard.YearGrandTotal | components/dashboard/dashboard.tsx:485-490 | Σ grandTotal over current-year records. ChartSumIsYearTotal and YearTotalsSplit are about it |
| Dashboard.MonthTotal | components/dashboard/dashboard.tsx:489-490 | Σ grandTotal of one (year, month). Aggregate ensures `monthlyTotals` holds it; MonthTotalEmpty gives 0 |
| Dashboard.EmployeeTotal | components/dashboard/dashboard.tsx:493-494 | Σ grandTotal of one employee over all years. Aggregate ensures `perEmployeeTotals` holds it |
| Dashboard.MapGet | components/dashboard/dashboard.tsx:517 | `monthlyTotals[key] ?? 0` |
| Dashboard.MonthlyChart | components/dashboard/dashboard.tsx:512-519 | `Array.from({ length: 12 }, ...)`. Specified by MonthlyChartShape and ChartSumIsYearTotal |
| Dashboard.Positive | components/dashboard/dashboard.tsx:529 | `filter(e => e.total > 0)`. Specified by PositiveRows |
| Dashboard.SortedDesc | components/dashboard/dashboard.tsx:530 | totals non-increasing along the list |
| Dashboard.Insert | components/dashboard/dashboard.tsx:530 | one insertion step of the stable sort. Specified by InsertPermutes, InsertSorted and InsertStable |
| Dashboard.SortDesc | components/dashboard/dashboard.tsx:530 | `sort((a, b) => b.total - a.total)`, which is stable. Specified by SortDescCorrect |
| Dashboard.Take3 | components/dashboard/dashboard.tsx:531 | `slice(0, 3)`. Specified by Take3OfSorted |
| Dashboard.TopEmployees | components/dashboard/dashboard.tsx:528-531 | filter, sort, take 3. Specified by TopEmployeesCorrect and TopEmployeesComplete |
| Dashboard.SaveSucceeds | components/dashboard/dashboard.tsx:257-316 | the early returns of `handleSaveRecord`: a signed-in user, a successful update and expense delete, and a successful insert when there are expenses |
| Dashboard.RefersToEmployees | components/dashboard/dashboard.tsx:139-140 | every record's employeeId is on the roster. CascadeKeepsReferences shows the cascade keeps it |
| Dashboard.DashboardState.RecordsReferToEmployees | components/dashboard/dashboard.tsx:139-140 | the same over the dashboard's state. DashboardState.ConfirmDelete preserves it |
| OtherExpenses.KeyOfSources | app/other_expenses/page.tsx:121-125 | the key comes from `date`, else from `createdAt` when there is no date, else from now |
| OtherExpenses.InsertGroup | app/other_expenses/page.tsx:153-155 | inserting a group adds exactly that group |
| OtherExpenses.SortGroups | app/other_expenses/page.tsx:153-155 | the sort is a permutation of the groups |
| OtherExpenses.ConsSorted | app/other_expenses/page.tsx:153-155 | a group later than every group of a descending list can go in front |
| OtherExpenses.InsertGroupSorted | app/other_expenses/page.tsx:153-155 | inserting a new month into a strictly descending list keeps it strictly descending |
| OtherExpenses.SortGroupsSorted | app/other_expenses/page.tsx:153-155 | groups with distinct months sort strictly descending by (year, month) |
| OtherExpenses.GroupsMapIsGroupOf | app/other_expenses/page.tsx:120-152 | the dictionary's group for each month holds exactly that month's expenses in list order, with their total |
| OtherExpenses.GroupsMapNonEmpty | app/other_expenses/page.tsx:126-151 | a month appears in the dictionary only with an item |
| OtherExpenses.FirstSeenIsKeys | app/other_expenses/page.tsx:126-149 | the insertion order lists exactly the dictionary's months, each once |
| OtherExpenses.FirstSeenCovers | app/other_expenses/page.tsx:120-152 | every expense's month was created |
| OtherExpenses.GroupByMonth | app/other_expenses/page.tsx:108-156 | the groups are strictly descending; each is exactly its month's items and total; none is empty; every expense's month has a group |
| OtherExpenses.ValuesOfOrder | app/other_expenses/page.tsx:153 | `Object.values` lists the groups of the months in creation order |
| OtherExpenses.AddToGroupIsGroupOf | app/other_expenses/page.tsx:150-151 | pushing an expense onto its month's group gives the group of the longer list |
| OtherExpenses.OtherMonthUnchanged | app/other_expenses/page.tsx:150-151 | an expense leaves the groups of other months unchanged |
| OtherExpenses.GroupsOfOrder | app/other_expenses/page.tsx:153-155 | sorting the dictionary's values keeps exactly the month groups, sorted |
| OtherExpenses.Keys | app/other_expenses/page.tsx:142 | the months of the groups, in order |
| OtherExpenses.GroupsAreKeysSum | app/other_expenses/page.tsx:151 | the group totals sum to the per-month sums |
| OtherExpenses.KeysSumStep | app/other_expenses/page.tsx:151 | an expense adds its amount to its own month only |
| OtherExpenses.HitsNone | app/other_expenses/page.tsx:151 | an expense of a month not listed adds nothing |
| OtherExpenses.HitsOnce | app/other_expenses/page.tsx:126 | an expense of a listed month is counted exactly once |
| OtherExpenses.KeysSumCovers | app/other_expenses/page.tsx:120-152 | over distinct months covering every expense, the per-month sums add up to the list total |
| OtherExpenses.KeysSumEmpty | app/other_expenses/page.tsx:119 | with no expenses every month sums to 0 |
| OtherExpenses.GroupTotalsConserved | app/other_expenses/page.tsx:274-276 | the group totals add up to the page total Σ amount |
| OtherExpenses.Toggle | app/other_expenses/page.tsx:306-319 | toggling flips that month and no other |
| OtherExpenses.ToggleTwice | app/other_expenses/page.tsx:306-319 | toggling twice restores every month |
| OtherExpenses.SlashFields | app/other_expenses/page.tsx:29 | with two-character day and month the slashes and fields sit at fixed positions |
| OtherExpenses.FormatDateFields | app/other_expenses/page.tsx:23-30 | "" for a missing or empty date; otherwise two-digit day and month and the year, separated by '/', each reading back as the date's number |
| OtherExpenses.ExpenseOfRow | app/other_expenses/page.tsx:91-99 | a row keeps its fields; a non-empty date becomes exactly its first ten characters (`slice(0, 10)`), and a missing or empty date becomes null |
| OtherExpenses.ExpensesOfRows | app/other_expenses/page.tsx:90-100 | one expense per row, in row order |
| OtherExpenses.OtherExpensesPage.constructor | app/other_expenses/page.tsx:35 | the page starts loading with an empty list |
| OtherExpenses.OtherExpensesPage.Load | app/other_expenses/page.tsx:69-102 | without a signed-in user (missing or empty id) nothing happens; an error keeps the list and shows the message; rows replace the list; loading ends |
| OtherExpenses.OtherExpensesPage.AddOther | app/other_expenses/page.tsx:413-456 | the returned row is appended, with the current time when it has no creation time; without a signed-in user (missing or empty id) or on failure nothing changes |
| OtherExpenses.OtherExpensesPage.SaveOther | app/other_expenses/page.tsx:185-207 | a successful update replaces by id; otherwise nothing changes |
| OtherExpenses.OtherExpensesPage.ConfirmDeleteOther | app/other_expenses/page.tsx:209-222 | a successful delete filters the id out; otherwise nothing changes |
| OtherExpenses.PeriodOf | app/other_expenses/page.tsx:123-124 | `getFullYear()` and `getMonth() + 1` of a day |
| OtherExpenses.DateSource | app/other_expenses/page.tsx:121 | `oe.date ?? oe.createdAt ?? null`. KeyOfSources states which field wins |
| OtherExpenses.KeyOf | app/other_expenses/page.tsx:121-125 | the month an expense is grouped under. Specified by KeyOfSources |
| OtherExpenses.Title | app/other_expenses/page.tsx:143 | the group heading. MonthLabels.GroupLabel and GroupLabelAgainstFormat state its text |
| OtherExpenses.ItemsIn | app/other_expenses/page.tsx:150 | the expenses with that month, in list order |
| OtherExpenses.GroupOf | app/other_expenses/page.tsx:141-151 | the group a month should have: its items in order and their sum. GroupByMonth ensures every group is this |
| OtherExpenses.Later | app/other_expenses/page.tsx:154 | `b.year - a.year \|\| b.month - a.month` as a strict order on months |
| OtherExpenses.StrictlyDescending | app/other_expenses/page.tsx:153-155 | each group is later than every group after it. GroupByMonth ensures it |
| OtherExpenses.DistinctKeys | app/other_expenses/page.tsx:126 | no two groups have the same month. SortGroupsSorted needs it |
| OtherExpenses.GroupFor | app/other_expenses/page.tsx:126 | `groups[key]`, or an empty group when the key is missing |
| OtherExpenses.AddToGroup | app/other_expenses/page.tsx:150-151 | `items.push(oe)` and `total += oe.amount`. AddToGroupIsGroupOf relates it to GroupOf |
| OtherExpenses.GroupsMap | app/other_expenses/page.tsx:120-152 | the dictionary after the loop. GroupByMonth's loop invariant; GroupsMapIsGroupOf and GroupsMapNonEmpty describe it |
| OtherExpenses.FirstSeen | app/other_expenses/page.tsx:126-149 | the order in which months are created, which `Object.values` follows. FirstSeenIsKeys and FirstSeenCovers describe it |
| OtherExpenses.SumTotals | app/other_expenses/page.tsx:151 | Σ of the group totals. GroupTotalsConserved equates it to the page total |
| OtherExpenses.IsOpen | app/other_expenses/page.tsx:296 | `!!openMonths[key]`, false when missing. Toggle and ToggleTwice are stated over it |
| OtherExpenses.FormatDate | app/other_expenses/page.tsx:23-30 | `formatDateDDMMYYYY`. Specified by FormatDateFields |
| OtherExpenses.OtherExpensesPage.Total | app/other_expenses/page.tsx:274-276 | the page total over the current list. GroupTotalsConserved equates it to the group totals |
| ExpenseDialogs.OtherExpensePayload | components/expenses/add-other-expenses-dialog.tsx:77-88 | the payload has the fresh id, the trimmed category, the amount as a non-negative number, the date unless blank, and the description trimmed when present |
| ExpenseDialogs.PayloadCategoryTrimmed | components/expenses/add-other-expenses-dialog.tsx:80 | the stored category is already trimmed |
| ExpenseDialogs.BlankCategoryStoredEmpty | components/expenses/add-other-expenses-dialog.tsx:27 | a category of spaces passes `min(1)` and is stored as "" |
| ExpenseDialogs.EmptyDescriptionKept | components/expenses/add-other-expenses-dialog.tsx:83 | a present empty description stays "", not null |
| ExpenseDialogs.DraftError | components/expenses/edit-other-expenses-dialog.tsx:46-56 | "Category is required." exactly for a blank category; "Amount must be a number." exactly for a NaN amount after that; no error otherwise |
| ExpenseDialogs.SavedExpense | components/expenses/edit-other-expenses-dialog.tsx:61-64 | the saved expense is the draft with its numeric amount |
| ExpenseDialogs.AmountOfInput | components/expenses/edit-other-expenses-dialog.tsx:127-128 | clearing the amount input gives 0 |
| ExpenseDialogs.AmountOfInputIsNumber | components/expenses/edit-other-expenses-dialog.tsx:127-128 | the input conversion always agrees with `Number(value)` |
| ExpenseDialogs.UntouchedDraftSaved | components/expenses/edit-other-expenses-dialog.tsx:32-65 | an expense with a category, opened and saved untouched, passes the checks and is saved unchanged |
| ExpenseDialogs.EditOtherExpenseDialog.constructor | components/expenses/edit-other-expenses-dialog.tsx:28-30 | no draft, not saving, no error |
| ExpenseDialogs.EditOtherExpenseDialog.Sync | components/expenses/edit-other-expenses-dialog.tsx:32-42 | opening with an expense copies it and clears the error; closing clears draft, saving and error |
| ExpenseDialogs.EditOtherExpenseDialog.SetCategory | components/expenses/edit-other-expenses-dialog.tsx:102-110 | typing sets the draft's category, if there is a draft |
| ExpenseDialogs.EditOtherExpenseDialog.SetAmountInput | components/expenses/edit-other-expenses-dialog.tsx:118-134 | typing sets the draft's amount from the input, if there is a draft |
| ExpenseDialogs.EditOtherExpenseDialog.SetDate | components/expenses/edit-other-expenses-dialog.tsx:141-149 | typing sets the draft's date to the text, "" when cleared, if there is a draft; nothing else changes |
| ExpenseDialogs.EditOtherExpenseDialog.SetDescription | components/expenses/edit-other-expenses-dialog.tsx:157-165 | typing sets the draft's description to the text, "" when cleared, if there is a draft; nothing else changes |
| ExpenseDialogs.EditOtherExpenseDialog.Submit | components/expenses/edit-other-expenses-dialog.tsx:44-72 | no draft: nothing; a failed check: its message and no save; otherwise the save is called, closes on success, shows the failure message otherwise, and saving ends false |
| ExpenseDialogs.OtherExpenseSchema | components/expenses/add-other-expenses-dialog.tsx:26-40 | the add dialog's `schema`. OtherExpensePayload is defined exactly on forms it accepts |
| EmployeeForms.RoleOf | components/employees/add-employee-dialog.tsx:78 | an empty or missing role becomes absent; any other is kept |
| EmployeeForms.NewEmployee | components/employees/add-employee-dialog.tsx:64-85 | the fresh id, the name as typed, the role unless empty, the salary null exactly when absent, blank or NaN |
| EmployeeForms.NewEmployeeAccepted | components/employees/add-employee-dialog.tsx:28-40 | an accepted form gives a non-empty name and no negative salary |
| EmployeeForms.EditedEmployee | components/employees/edit-employee-dialog.tsx:89-94 | the edit keeps the id and sets name, role and salary as the add dialog converts them |
| EmployeeForms.EditedIsNewUnderOldId | components/employees/edit-employee-dialog.tsx:79-98 | editing is the add conversion under the old id |
| EmployeeForms.PrefillEmployee | components/employees/edit-employee-dialog.tsx:64-75 | the prefill keeps the name, puts "" for an absent role, and the salary's text |
| EmployeeForms.ShownForm | components/employees/edit-employee-dialog.tsx:77 | with no employee there is no form |
| EmployeeForms.UntouchedEditRoundTrip | components/employees/edit-employee-dialog.tsx:64-98 | saving the prefilled form gives back the employee, except that an empty role becomes absent |
| EmployeeForms.PrefillAccepted | components/employees/edit-employee-dialog.tsx:27-37 | the prefill passes the schema exactly when the name is non-empty and the salary null or non-negative |
| EmployeeForms.TrimmedEntryMatches | components/employees/delete-employee-dialog.tsx:38-39 | spaces around the typed name do not change the match |
| EmployeeForms.LowerEntryMatches | components/employees/delete-employee-dialog.tsx:38-39 | the letter case of the typed name does not change the match |
| EmployeeForms.BlankNameMatch | components/employees/delete-employee-dialog.tsx:38-39 | a blank name is matched exactly by a blank entry |
| EmployeeForms.DeleteEmployeeDialog.constructor | components/employees/delete-employee-dialog.tsx:28 | the confirmation starts empty |
| EmployeeForms.DeleteEmployeeDialog.Open | components/employees/delete-employee-dialog.tsx:30-34 | opening resets the confirmation to "" |
| EmployeeForms.DeleteEmployeeDialog.Type | components/employees/delete-employee-dialog.tsx:28 | typing sets the confirmation |
| EmployeeForms.DeleteEmployeeDialog.HandleDelete | components/employees/delete-employee-dialog.tsx:36-45 | the employee's id is passed, and the dialog closes, exactly when there is an employee and the name matches |
| EmployeeForms.EmployeeSchema | components/employees/add-employee-dialog.tsx:28-40 | `formSchema`: a non-empty name and a valid salary. NewEmployeeAccepted and PrefillAccepted are stated over it |
| EmployeeForms.NameKey | components/employees/delete-employee-dialog.tsx:38-39 | `trim().toLowerCase()` |
| EmployeeForms.IsMatch | components/employees/delete-employee-dialog.tsx:38-39 | `isMatch`. Specified by TrimmedEntryMatches, LowerEntryMatches and BlankNameMatch; it gates DeleteEmployeeDialog.HandleDelete |
| EmployeePages.Split | components/employees/employee-specific-detail-page-client.tsx:47 | `split("/")` gives at least one piece |
| EmployeePages.NonEmpty | components/employees/employee-specific-detail-page-client.tsx:47 | `filter(Boolean)` keeps only non-empty pieces |
| EmployeePages.DropTrailingSlashes | components/employees/employee-specific-detail-page-client.tsx:45-49 | the prefix left after dropping trailing slashes ends in a non-slash |
| EmployeePages.AfterLastSlash | components/employees/employee-specific-detail-page-client.tsx:45-49 | the suffix after the last slash has no slash |
| EmployeePages.LastPieceAfterLastSlash | components/employees/employee-specific-detail-page-client.tsx:47-48 | the last piece of `split("/")` is the text after the last slash |
| EmployeePages.TrailingSlashIgnored | components/employees/employee-specific-detail-page-client.tsx:47 | a trailing slash adds only an empty piece, which the filter drops |
| EmployeePages.LastPieceNonEmpty | components/employees/employee-specific-detail-page-client.tsx:47-48 | without a trailing slash the filter keeps the last piece last |
| EmployeePages.LastSegmentAfterLastSlash | components/employees/employee-specific-detail-page-client.tsx:45-49 | the last non-empty segment is the text after the last slash once trailing slashes are dropped |
| EmployeePages.PathIdIsLastSegment | components/employees/employee-specific-detail-page-client.tsx:45-49 | the page id is the last non-empty path segment |
| EmployeePages.PathIdShape | components/employees/employee-specific-detail-page-client.tsx:45-49 | the id has no slash and is "" exactly when the path is only slashes |
| EmployeePages.PaidAfterDelete | components/employees/employee-specific-detail-page-client.tsx:181-188 | a delete lowers `totalPaid` by what the records with that id paid |
| EmployeePages.PaidAfterSave | components/employees/employee-specific-detail-page-client.tsx:129-131 | a save changes `totalPaid` by the difference between the new and old grand totals under that id |
| EmployeePages.DeleteLowersTotalPaid | components/employees/employee-specific-detail-page-client.tsx:142-145 | after a delete `totalPaid` has dropped by the deleted record's amount and no record with that id is left |
| EmployeePages.EmployeeDetailPage.constructor | components/employees/employee-specific-detail-page-client.tsx:51-54 | the page starts loading with no employee, no records and no error |
| EmployeePages.EmployeeDetailPage.Load | components/employees/employee-specific-detail-page-client.tsx:195-294 | an empty id sets "No employee id in URL."; each failed query sets its message; a missing employee sets "Employee not found."; no records means `[]`; otherwise the joined records; loading always ends |
| EmployeePages.EmployeeDetailPage.AskDelete | components/employees/employee-specific-detail-page-client.tsx:512 | choosing a record to delete sets only the pending record |
| EmployeePages.EmployeeDetailPage.SaveRecord | components/employees/employee-specific-detail-page-client.tsx:59-135 | when every step succeeds the record is replaced by id; without a signed-in user (missing or empty id) or on any failure the records are unchanged |
| EmployeePages.EmployeeDetailPage.DeleteRecord | components/employees/employee-specific-detail-page-client.tsx:171-193 | without a pending record nothing; a failure keeps the records; a success filters that id out and clears the pending record; deleting ends false |
| EmployeePages.EmployeeDetailView.constructor | components/employees/employee-detail-client.tsx:30-32 | the records are the initial records, and they are constant |
| EmployeePages.EmployeeDetailView.TotalsAgree | components/employees/employee-detail-client.tsx:34-42 | with consistent records, totalPaid is the salaries plus totalExpenses; with none both are 0 |
| EmployeePages.LastOrEmpty | components/employees/employee-specific-detail-page-client.tsx:48 | `segments[segments.length - 1] ?? ""` |
| EmployeePages.LastSegment | components/employees/employee-specific-detail-page-client.tsx:47-48 | the last non-empty piece of `split("/")`. LastSegmentAfterLastSlash characterises it |
| EmployeePages.PathId | components/employees/employee-specific-detail-page-client.tsx:45-49 | the page id. Specified by PathIdIsLastSegment and PathIdShape |
| EmployeePages.PaidFor | components/employees/employee-specific-detail-page-client.tsx:142-145 | Σ grandTotal of the records with one id. PaidAfterDelete and PaidAfterSave are stated with it |
| EmployeePages.EmployeeDetailPage.TotalPaid | components/employees/employee-specific-detail-page-client.tsx:142-145 | `totalPaid` of the page's records: Σ grandTotal. DeleteLowersTotalPaid gives its change on a delete |
| EmployeePages.EmployeeDetailPage.TotalExpenses | components/employees/employee-specific-detail-page-client.tsx:147-150 | `totalExpenses` of the page's records: Σ totalExpenses |
| EmployeePages.EmployeeDetailView.TotalPaid | components/employees/employee-detail-client.tsx:34-37 | `totalPaid`: Σ grandTotal. TotalsAgree relates it to the salaries and expenses |
| EmployeePages.EmployeeDetailView.TotalExpenses | components/employees/employee-detail-client.tsx:39-42 | `totalExpenses`: Σ totalExpenses. TotalsAgree gives 0 with no records |

## Left out

- Floating point: amounts are integers. `Number(s)` is modelled over optional-sign decimal integers after ASCII trimming. Fractions, exponents, hexadecimal and `Infinity` parse as NaN here.
- `toLocaleString("en-IN")`, the chart's bar widths, all rendering, and the CSV/PDF export are not modelled.
- `trim` and `toLowerCase` are modelled over ASCII only.
- Dates and time zones. The salary dialogs read year and month from the digits of the accepted `YYYY-MM-DD` text. The real `new Date(...)` can shift the month west of UTC.
- SalaryRecordForm.PeriodOfDate: the date check accepts any `YYYY-MM-DD` digits, so the month can be 00 or 13..99. Such a date gives its digits here (for example "2025-13-01" gives year 2025 and month 13). In the source, `new Date` of that text is an Invalid Date, so year and month are NaN.
- A signed-in user is an id that is present and not empty (`Base.SignedIn`), because `!userId` is also true for "". `Dashboard.DashboardState.SaveEmployee` and `ConfirmDelete` do not check the user, as in the source.
- The other-expenses page reads stored dates through an abstract `Calendar` parameter, and "now" is part of that parameter. A date that does not parse is whatever the parameter gives.
- The expense grouping falls back to today when the date is "", or when the date is absent and the creation time is absent or empty (`OtherExpenses.KeyOfSources`). A cleared date in the edit dialog is stored as "", so such an expense is grouped under today's month. A present but malformed date goes through the date parse like any other.
- `ExpenseDialogs.EditOtherExpenseDialog.Submit` takes the outcome of `onSave` as a free input. On the other-expenses page, `onSave` is `handleSaveOther` (app/other_expenses/page.tsx:185-207), which returns normally on a missing user or a failed update. So there the dialog sees success and closes while the list stays unchanged, and its failure message never appears. The composition of the two is not modelled.
- Dictionary keys of the form `${year}-${pad2(month)}` are modelled as `YearMonth` pairs.
- Supabase I/O, `getSession`, sign-out and routing are inputs to the model: an `Outcome`, `Fetch`, `Written` or `Single` value, with the user id as a parameter or field. A successful employee or salary-record write, and a successful other-expense update, is modelled by appending or replacing the value sent. An employee insert's echoed row is taken to equal the employee sent. The other-expense insert instead appends the row the insert returns, with `createdAt ?? now` (`OtherExpenses.OtherExpensesPage.AddOther`).
- The `.order(...)` clauses of the queries are not modelled. Rows are taken in the order given.
- The remote two-step "delete expenses, then insert" of a record save is modelled only as the three outcomes it waits for.
- `Dashboard.SaveSucceeds`: a save succeeds when the user is signed in (a present, non-empty id), the update succeeds, and both expense steps succeed. This matches the early returns of the source. The expense insert is skipped when there are no expenses, and its outcome is then ignored.
- `crypto.randomUUID` is a fresh-id parameter. Freshness of the ids is not modelled.
- The month of a record (`lib/types.ts:19`) is not forced into 1..12. The chart lemmas take that range as a precondition instead.
- `Types.ExpenseDateWellFormed`: the ISO-or-empty date of a salary expense (`lib/types.ts:12`) is not enforced. The salary dialog's expense date is a bare date input, and `canAddExpense` ignores it, so no operation of the model promises this shape.
- The confirm-and-forward delete dialogs for other expenses and for salary records are not modelled, nor are `components/auth/auth-form.tsx` and `app/auth/page.tsx`. They hold no list logic.
- `handleAddOtherExpense` (app/other_expenses/page.tsx:159-183) is never called. The add dialog's inline `onAdd` is modelled instead, as `OtherExpensesPage.AddOther`.
- The forms' own reset-on-close in the add-employee and add-other-expense dialogs is not modelled. That state belongs to the form library.
- The detail page's `editRecord`/`isEditOpen` flags and the dashboard's dialog flags are not modelled.
- The intermediate `loading = true` step of a load is not modelled. Each load method states only its final state.
- `EmployeePages.PaidAfterSave`: stated as an equation between sums, not as "the old grand total times the number of records with that id".
