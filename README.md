# FinanzApp budget core, modelled in Dafny

FinanzApp Colombia is a client-side budget calculator with two pages. On the
single-earner page a person enters a monthly salary. On the couple page two
people enter their names and salaries, and the page keeps their combined total
up to date. On either page the user then picks a distribution method: one of the
presets `50-30-20` and `70-20-10`, or `custom`, a needs/wants/savings split that
must add up to 100. Calculating splits the income into the three categories and
shows a random selection of financial tips.

This project models the logic the two pages share, and each page's own state
machine:

- `results.dfy`: the `Option` and `Result` wrappers.
- `amounts.dfy` (module `Amounts`):
  - `parseInputValue`, which turns a salary field into whole pesos;
  - the salary fields' sanitiser, which keeps digits and commas, collapses runs of commas and drops a leading comma;
  - the paste handler's digit extraction.
- `budget.dfy` (module `Budget`):
  - the `DISTRIBUTION_METHODS` registry;
  - the custom-split sum check;
  - method resolution;
  - `calculateDistribution`, with amounts as exact reals;
  - the error kinds of `calculateBudget`.
- `tips.dfy` (module `Tips`):
  - the two tip catalogs (12 couple tips, 10 individual tips);
  - `getRandomTips`, with the random shuffle supplied as a permutation of catalog positions.
- `single_script.dfy` (module `SingleScript`): class `SingleSession`, the module state of `src/scripts/script.js` (`selectedMethod`, `salaryAmount`) plus the form fields its handlers read and write.
- `couple_script.dfy` (module `CoupleScript`): class `CoupleSession`, the module state of `src/scripts/budgetduo-script.js` (`selectedMethod`, `totalCombinedSalary`, `person1Data`, `person2Data`) plus its form fields.
  - Its invariant `Valid()` says that each salary equals the amount parsed from its field, and that the combined total is their sum.

Behaviours the model keeps exactly as the code has them:

- The couple reset does not restore the initial state. The names end as the labels `Persona 1` and `Persona 2`, not `''`.
- The single-earner reset leaves `salaryAmount` unchanged.
- No custom field is range-checked. Only the sum is checked.
- The single-earner page checks for a blank salary field first. It checks that the parsed salary is positive last, after the method checks.
- The `70-20-10` preset has wants 10 and savings 20, as in the registry.

## Model

| member | source | states |
|---|---|---|
| `Amounts.ParseInputValue` | src/scripts/budgetduo-script.js:159-177 | The result is the base-10 value of the input's digits, in order. It is 0 for blank input or input with no digits. It is never negative. |
| `Amounts.BlankHasNoDigits` | src/scripts/budgetduo-script.js:160-163 | Blank input (empty, or only characters that `trim` removes) has no digits. So the early return of 0 agrees with the digit reading. |
| `Amounts.KeepDigits` | src/scripts/script.js:151-152 | Stripping non-digits leaves only digits. It never lengthens the text and leaves an all-digit text unchanged. |
| `Amounts.KeepDigitsAppend` | src/scripts/script.js:152 | Stripping non-digits from a concatenation equals concatenating the stripped parts. |
| `Amounts.ParseDecimalString` | src/scripts/script.js:145-163 | The parser reads back the plain decimal numeral of every amount. |
| `Amounts.ParseGrouped` | src/scripts/budgetduo-script.js:165-169 | Separators between groups of three digits do not change the parsed amount, for any separator that is not a digit. |
| `Amounts.ParseExamples` | src/scripts/script.js:145-163 | "1.234.567", "1,234,567" and "1234567" all parse to 1234567. A blank field parses to 0. |
| `Amounts.KeepDigitsAndCommas` | src/scripts/script.js:222 | The first step leaves only digits and commas. A single digit or comma is kept and any other single character is dropped. It keeps the digits in order and changes nothing in text that is already only digits and commas. |
| `Amounts.KeepDigitsAndCommasAppend` | src/scripts/script.js:222 | The first step works character by character: filtering a concatenation concatenates the filtered parts, so every digit and every comma stays in place. |
| `Amounts.CollapseCommas` | src/scripts/script.js:225 | After collapsing, there are never two adjacent commas. The digits and the first character are kept, and text without a double comma is unchanged. |
| `Amounts.CollapseCommaRun` | src/scripts/script.js:225 | Two adjacent commas anywhere in the text give the same result as one comma. With the unchanged-text clause, each run of commas becomes exactly one comma and nothing else changes. |
| `Amounts.SanitizeSalary` | src/scripts/script.js:218-233 | The output is only digits and commas, has no two adjacent commas and does not start with a comma. It keeps the input's digits in order and leaves already-sanitised text unchanged. |
| `Amounts.SanitizeDropsOtherChars` | src/scripts/script.js:222 | Inserting a character that is neither a digit nor a comma, anywhere in the text, never changes the sanitised result. |
| `Amounts.SanitizeCollapsesCommaRun` | src/scripts/script.js:225 | Two adjacent commas anywhere in the text sanitise as one comma, so "1,,2" gives the same as "1,2". |
| `Amounts.SanitizeDropsLeadingComma` | src/scripts/script.js:228 | A comma put in front of the text never changes the sanitised result. With the other two laws and the unchanged-text clause, this fixes the result for every input. |
| `Amounts.SanitizeIdempotent` | src/scripts/script.js:222-228 | Sanitising a second time changes nothing. |
| `Amounts.SanitizeFixedPoints` | src/scripts/budgetduo-script.js:242-248 | The sanitiser leaves a field unchanged exactly when the field is already sanitised. |
| `Amounts.SanitizeKeepsAmount` | src/scripts/budgetduo-script.js:238-267 | Sanitising never changes the amount the field parses to. |
| `Amounts.PastedAmount` | src/scripts/script.js:248-262 | A paste with no digits has no effect. Otherwise it yields the amount the pasted text parses to. |
| `Budget.Preset` | src/scripts/budgetduo-script.js:36-49 | Exactly the ids `50-30-20` and `70-20-10` are registered. Each registered split has positive parts that sum to 100. |
| `Budget.PresetContents` | src/scripts/script.js:32-45 | `50-30-20` is 50/30/20. `70-20-10` is needs 70, wants 10, savings 20. `custom` is not a preset. |
| `Budget.ValidateCustomPercentages` | src/scripts/budgetduo-script.js:437-442 | The total is the sum of the three fields, with an unparseable field counting as 0. The split is valid exactly when that total is 100. |
| `Budget.CustomDefaultsPass` | src/scripts/script.js:300-308 | The 50/30/20 values written when `custom` is selected pass the check with total 100. |
| `Budget.GateHasNoFieldBounds` | src/scripts/budgetduo-script.js:513-521 | 150, -50 and an unparseable field pass the check. 50/30/21 fails. |
| `Budget.BareCustomSplit` | src/scripts/budgetduo-script.js:554-557 | A bare `parseInt` reading gives a split only when all three fields parse, and then it is the validated split. |
| `Budget.GateAdmitsUnparsedField` | src/scripts/script.js:391-398 | An empty needs field with wants 60 and savings 40 passes the check, yet the calculation's bare reading has no number for needs. |
| `Budget.ResolveSplit` | src/scripts/budgetduo-script.js:551-563 | An unknown id fails with UnknownMethod. `custom` gives the split the check validated. Every split that is resolved and, for `custom`, validated sums to 100. |
| `Budget.CalculateDistribution` | src/scripts/budgetduo-script.js:551-579 | Each category keeps its percentage. The three amounts add up to total × (sum of percentages) / 100, and so to the total when the percentages sum to 100. Each amount times 100 is the total times that category's percentage. |
| `Budget.AmountsFollowPercentages` | src/scripts/script.js:457-470 | Each amount times 100 is total × percentage. A non-negative percentage never gives a negative amount, and a larger percentage never gets less. |
| `Budget.WorkedDistributions` | src/scripts/script.js:443-471 | 2,000,000 on 50/30/20 gives 1,000,000, 600,000 and 400,000. 1,500,000 + 2,500,000 on the `70-20-10` preset gives 2,800,000, 400,000 and 800,000. |
| `Tips.CoupleCatalogDistinct` | src/scripts/budgetduo-script.js:59-120 | The couple catalog has 12 tips, and none of them repeats. |
| `Tips.IndividualCatalogDistinct` | src/scripts/script.js:55-106 | The individual catalog has 10 tips, and none of them repeats. |
| `Tips.ShuffledIsPermutation` | src/scripts/budgetduo-script.js:698 | The shuffled copy holds exactly the catalog's entries, and it has no repeats when the catalog has none. |
| `Tips.GetRandomTips` | src/scripts/budgetduo-script.js:697-700 | The result has min(count, catalog size) tips. It is a prefix of the shuffled catalog, every tip in it comes from the catalog, and it has no repeats when the catalog has none. |
| `Tips.CoupleSample` | src/scripts/budgetduo-script.js:678 | The couple page shows 6 distinct tips from its catalog of 12. |
| `Tips.IndividualSample` | src/scripts/script.js:570 | The single-earner page shows 4 distinct tips from its catalog of 10. |
| `SingleScript.SingleSession.constructor` | src/scripts/script.js:27-29 | No method is selected, `salaryAmount` is 0 and the salary field is empty. |
| `SingleScript.SingleSession.OnSalaryInput` | src/scripts/script.js:218-233 | The field holds the sanitised text, which parses to the same amount as what was typed. |
| `SingleScript.SingleSession.OnSalaryPaste` | src/scripts/script.js:248-262 | A paste with digits writes their amount, which parses back to the pasted amount. A paste without digits leaves the field unchanged. |
| `SingleScript.SingleSession.SelectDistributionMethod` | src/scripts/script.js:273-308 | `selectedMethod` becomes the id. `custom` resets the custom fields to 50/30/20, which pass the check, and any other id leaves them unchanged. |
| `SingleScript.SingleSession.EnterCustomPercentages` | src/scripts/script.js:322-327 | The custom fields take the new values and are validated by the sum check. |
| `SingleScript.SingleSession.CalculateBudget` | src/scripts/script.js:375-437 | The checks run in order: blank salary field, no method, an invalid custom split, then a parsed salary of 0. The first failure is the only error. When every check passes and the id is registered, the result is a success. `salaryAmount` changes only after the first three checks pass. A success shows the distribution of `salaryAmount`, which sums to it, and 4 distinct tips. |
| `SingleScript.SingleSession.ResetApplication` | src/scripts/script.js:652-688 | The salary field is emptied and the selection is cleared. `salaryAmount` and the custom fields are unchanged. |
| `CoupleScript.LabelName` | src/scripts/budgetduo-script.js:365-366 | A non-empty field is kept as it is, blank text included. An empty field gives the default label. |
| `CoupleScript.CoupleSession.constructor` | src/scripts/budgetduo-script.js:29-33 | No method is selected, the total is 0, both people are `{name: '', salary: 0}` and the fields are empty. The invariant holds. |
| `CoupleScript.CoupleSession.UpdateCombinedTotal` | src/scripts/budgetduo-script.js:325-341 | Each salary becomes the parsed amount of its field, and the total becomes their sum. Names and the selection are unchanged. The invariant holds afterwards. |
| `CoupleScript.CoupleSession.UpdatePersonLabels` | src/scripts/budgetduo-script.js:364-370 | Each name becomes its field, or `Persona 1` / `Persona 2` when the field is empty. Salaries are unchanged. |
| `CoupleScript.CoupleSession.OnSalaryInput` | src/scripts/budgetduo-script.js:238-268 | The edited field holds the sanitised text. The total is the typed amount plus the other field's amount, the invariant is kept and names are unchanged. |
| `CoupleScript.CoupleSession.OnSalaryPaste` | src/scripts/budgetduo-script.js:271-286 | A paste with digits writes the pasted amount into that person's field and salary, and keeps the invariant. The other person's field and data stay as they were. A paste without digits changes nothing. |
| `CoupleScript.CoupleSession.OnNameInput` | src/scripts/budgetduo-script.js:301-305 | The edited name field takes the text, and both labels are recomputed from the fields. |
| `CoupleScript.CoupleSession.SelectDistributionMethod` | src/scripts/budgetduo-script.js:388-428 | `selectedMethod` becomes the id. `custom` resets the custom fields to 50/30/20, which pass the check. |
| `CoupleScript.CoupleSession.EnterCustomPercentages` | src/scripts/budgetduo-script.js:437-442 | The custom fields take the new values and are validated by the sum check. |
| `CoupleScript.CoupleSession.CalculateBudget` | src/scripts/budgetduo-script.js:490-545 | The checks run in order: a blank name, a zero total, no method, an invalid custom split. The first failure is the only error, and an unregistered id fails with UnknownMethod. When every check passes and the id is registered, the result is a success. A success shows the distribution of the combined total, which sums to it, and 6 distinct tips. No state changes. |
| `CoupleScript.CoupleSession.ResetApplication` | src/scripts/budgetduo-script.js:760-815 | All four fields are emptied and both salaries and the total become 0. The selection is cleared, the names become `Persona 1` and `Persona 2`, and the custom fields are unchanged. |

## Findings

| source | as written | input that shows it | evidently intended | confidence | as-written member | corrected member |
|---|---|---|---|---|---|---|
| src/scripts/budgetduo-script.js:555-557 | The calculation reads the custom fields with a bare `parseInt`. The check just before it (lines 514-516) reads them as `parseInt(..) \|\| 0`. A field with no number passes the check as 0, and then the calculation gives that category a percentage and an amount of NaN. The same holds in src/scripts/script.js:447-449. | needs field empty, wants 60, savings 40, method `custom` | The calculation reads the fields as the check does, so the split sums to 100 and the amounts sum to the total. | high; not executed | `Budget.GateAdmitsUnparsedField` | `Budget.ResolveSplit` |

Both sessions use the corrected reading, `Budget.ResolveSplit`.

## Left out

- `formatCurrency` is not modelled. It uses floating-point division, `toFixed` and `toLocaleString`, and only the display uses it.
- `isValidNumber` (src/scripts/script.js:135, src/scripts/budgetduo-script.js:149) is not modelled. It is defined in both files but called in neither.
- After sanitising, the salary `input` handler regroups the digits with `toLocaleString('es-CO')`. That is a library call, so the model keeps the sanitised text. Regrouping changes only the separators and leading zeros, never the parsed amount. The parsed amount ignores separators (`Amounts.ParseGrouped`) and leading zeros.
- `OnSalaryPaste` (both sessions) writes the plain decimal numeral of the pasted amount, where the source writes its `toLocaleString('es-CO')` rendering.
- The model takes the `parseInt` result of each custom field (`Option<int>`, with None for NaN). `parseInt`'s reading of the field's text is not modelled.
- Amounts are exact integers and reals. IEEE-754 rounding, `parseInt` precision above 2^53 and overflow to `Infinity` are not modelled.
- `getRandomTips`: the random comparator sort is a permutation supplied by the caller. Its distribution is not modelled, and uniformity is not claimed.
- Tips carry only their category. Titles and descriptions are display text.
- DOM work is not modelled: class toggling, element creation, `innerHTML`, `scrollIntoView`, `showResults`, `displayResults`, name-field border styling and the validation message element.
- `showError` messages are represented by their error kind. The 5-second auto-hide and all `console` logging are not modelled.
- Chart.js is not modelled: `generateChart`, `currentChart` and the `requestAnimationFrame` resize. The results section's visibility is not modelled either.
- Missing DOM elements are not modelled. All fields are assumed present, so the early returns and `?.` paths taken when an element is absent are not covered.
- `Budget.ResolveSplit` treats every id other than the two presets and `custom` as unregistered. In the source, an inherited object key such as `toString` would give undefined percentages instead of a `TypeError`.
- `SingleScript.SingleSession.CalculateBudget` uses the corrected custom reading (`Budget.ResolveSplit`). Take a custom split where one field has no number and the other two sum to 100, such as needs empty, wants 60, savings 40. The source (src/scripts/script.js:447-449) shows that category as `NaN%` with a NaN amount and reports no error. The model gives it 0% and 0, and the amounts sum to the salary.
- `CoupleScript.CoupleSession.CalculateBudget` makes the same correction. For that input, src/scripts/budgetduo-script.js:555-557 shows the category as NaN. The model gives 0 and a distribution that sums to the combined total.
- Event wiring (`DOMContentLoaded`, `addEventListener`) is not modelled. Each handler is a method that the caller invokes.
