# MTD Tracker for Sole Traders and Landlords — a Dafny model of its core

The tracker keeps the income and expense transactions of a UK sole trader or landlord. It works out
Making Tax Digital quarters and deductible amounts, and exports quarterly reports. This project models
the parts of it that compute or change data. "Now" is always passed in as a parameter.

- **Tax calendar and ledger** (`tax_calendar.dfy`, `ledger.dfy`, `validation.dfy`, `categories.dfy`)
  - The tax-year anchor and the four quarter windows. The windows are nested: every quarter starts on
    6 April (1 April under the calendar election) and only the end moves forward.
  - The current quarter, and the deductible amount of a transaction.
  - The quarter summary: totals and a per-category breakdown.
  - The form validators, and the two fixed category taxonomies.
  - The loops of the source are methods: `GetTaxYearQuarters`, `GetCurrentQuarter`,
    `CalculateTaxDeductibleAmount` and `CalculateQuarterSummary`. Each is proved equal to a
    specification function, and the properties are proved about those functions.
- **Store** (`store.dfy`): the demo-mode branches of the application store, as a class.
  - The fields `businessTypes`, `businesses`, `currentBusinessId`, `transactions`, `user`, `userType`
    and `error`, plus `storage`, a map standing for the browser's key-value storage.
  - Every action states its whole new state.
  - `Valid()` is kept by every action. It says:
    - there is one business-type entry per type;
    - every business's `businessTypeId` names an entry;
    - the current id names a business;
    - storage mirrors the business and type lists.
- **Write path** (`transaction_form.dfy`, `business_forms.dfy`)
  - The transaction payload: sign, adjustments, property reference and receipt.
  - The routing of a submission through `selectBusiness` and then `addTransaction` or `updateTransaction`.
  - The add and edit business payloads and their submissions.
  - The business manager's delete guard and its menu state.
- **Read path** (`transaction_list.dfy`, `reports.dfy`, `deadlines.dfy`)
  - The transaction list's filter, sort and CSV export, and its adjustments badge.
  - The JSON report, its file name, and the ranked income and expense categories.
  - The deadline widget's schedule, days left, upcoming list, next deadline and status texts.
- **Shared helpers** (`wrappers.dfy`, `text.dfy`, `seqs.dfy`, `sorting.dfy`, `dates.dfy`, `records.dfy`,
  `demo_data.dfy`)
  - Trimming, lower-casing and integer text.
  - Filtering, and an insertion sort.
  - Calendar dates: a date is `Date(year, month, day)` with JavaScript's 0-based month. Dates are
    ordered lexicographically and numbered by day.
  - The transaction and business records, and the built-in demo transactions.

Where the code behaves unexpectedly, the model follows the code:
- Under the calendar election, the business manager labels the tax year "1 Jan - 31 Dec", while the
  quarter windows it is reported on start on 1 April.
- The deadline widget looks up `currentQuarter.quarter`, a property the quarter objects never have, so
  no row is ever marked current.
- The business-name length rule is checked before trimming.
- `deleteBusiness`, `getBusinessesByType` and `getCurrentBusiness` are each defined twice in the store.
  The later definition is the one in effect; the two copies are identical.
- Some demo categories are missing from their own taxonomy. Such transactions count in the totals only.

## Model

| member | source | states |
|---|---|---|
| TaxCalendar.CurrentTaxYear | src/utils/helpers.js:19-33 | the anchor year y satisfies 6 April y ≤ now < 6 April y+1 |
| TaxCalendar.TaxYearUnique | src/utils/helpers.js:19-33 | any year with that property is the anchor year, so 5 Apr 2025 gives 2024 and 6 Apr 2025 gives 2025 |
| TaxCalendar.GetTaxYearQuarters | src/utils/helpers.js:35-99 | the four pushes produce exactly the specified quarter list |
| TaxCalendar.TaxYearQuarters | src/utils/helpers.js:35-99 | there are always four quarters |
| TaxCalendar.LabelText | src/utils/helpers.js:35-99 | quarter i is labelled `Qi Y/YY`, with YY the last two digits of Y+1 |
| TaxCalendar.ValueText | src/utils/helpers.js:35-99 | quarter i has value `Y-Qi`, with `-calendar` appended under the election |
| TaxCalendar.TaxYearTextDigits | src/utils/helpers.js:35-99 | from year 9 on, the `YY` of a label is the two last decimal digits of the following year |
| TaxCalendar.QuarterValueInjective | src/utils/helpers.js:35-99 | different (year, election, quarter) triples never share a value |
| TaxCalendar.QuartersShape | src/utils/helpers.js:35-99 | all four share one start (6 April, or 1 April under the election), each starts before it ends, and all dates are real days |
| TaxCalendar.EndsIncrease | src/utils/helpers.js:35-99 | the ends strictly increase |
| TaxCalendar.WindowsNested | src/utils/helpers.js:35-99 | each window contains every earlier one |
| TaxCalendar.FullYearWindow | src/utils/helpers.js:35-99 | Q4 spans the whole year: 6 Apr–5 Apr, or 1 Apr–31 Mar under the election |
| TaxCalendar.FirstContaining | src/utils/helpers.js:107-111 | the returned index is the first window containing the date, or none contains it |
| TaxCalendar.GetCurrentQuarter | src/utils/helpers.js:101-115 | the index loop with early return gives the specified current quarter, which is one of this tax year's quarters |
| TaxCalendar.CurrentQuarter | src/utils/helpers.js:101-115 | what getCurrentQuarter returns; GetCurrentQuarter, StandardQuarterContainsNow and CalendarQuarterFallback state its properties |
| TaxCalendar.StandardQuarterContainsNow | src/utils/helpers.js:101-115 | without the election the current quarter contains today, and every earlier quarter has already ended |
| TaxCalendar.CalendarQuarterFallback | src/utils/helpers.js:26-115 | under the election the current quarter contains today except on 1–5 April, when it falls back to Q1 of the previous year's windows |
| Ledger.TaxDeductible | src/utils/helpers.js:122-139 | income passes through signed; for an expense: disallowable gives 0, else the result is at most \|amount\|, is non-negative for p ≤ 100, and equals \|amount\|·(100−p)/100 for p > 0 |
| Ledger.CalculateTaxDeductibleAmount | src/utils/helpers.js:122-139 | the method that reassigns a local equals TaxDeductible |
| Ledger.DeductibleInFull | src/utils/helpers.js:125-138 | a non-zero expense with p ≤ 100 is deductible in full iff it is allowable and has no private use |
| Ledger.FilterByQuarter | src/utils/helpers.js:141-146 | keeps exactly the transactions dated within the window (both ends inclusive), each as often as in the input, as a subsequence |
| Ledger.InitBreakdown | src/utils/helpers.js:159-167 | the initial entries have unique keys and zero amounts and counts |
| Ledger.InitBreakdownKeys | src/utils/helpers.js:159-167 | the breakdown has a key exactly for the supplied category ids |
| Ledger.InitBreakdownExact | src/utils/helpers.js:159-167 | with unique ids, there is one zeroed entry per category, in order |
| Ledger.Put | src/utils/helpers.js:160 | writing a key replaces its entry in place, or appends it, and keeps keys unique |
| Ledger.PutKeys | src/utils/helpers.js:160 | after the write the keys are exactly the old keys plus the written one |
| Ledger.CalculateQuarterSummary | src/utils/helpers.js:148-189 | the two forEach loops compute exactly QuarterSummary |
| Ledger.AccumulateTotals | src/utils/helpers.js:169-178 | after any transactions, the totals are the sums of \|amount\| over income and non-income, and of the deductible over non-income |
| Ledger.QuarterSummary | src/utils/helpers.js:148-189 | what calculateQuarterSummary returns; QuarterTotals and QuarterBreakdown state its totals and entries |
| Ledger.QuarterTotals | src/utils/helpers.js:148-178 | the summary totals are those sums over the in-range transactions |
| Ledger.DeductibleSumBounds | src/utils/helpers.js:173-178 | the sum of deductibles of expenses is at most their \|amount\| sum, and is non-negative when every p ≤ 100 |
| Ledger.DeductibleWithinExpenses | src/utils/helpers.js:148-189 | totalTaxDeductibleExpenses ≤ totalExpenses |
| Ledger.AccumulateBreakdown | src/utils/helpers.js:169-186 | the keys are kept, and each entry gains the \|amount\| sum, the deductible sum and the count of the transactions of its category |
| Ledger.QuarterBreakdown | src/utils/helpers.js:148-189 | with unique category ids, entry k holds category k's in-range sums and count, and the counts add up to at most the number of in-range transactions |
| Ledger.CountSumBound | src/utils/helpers.js:181-185 | each transaction adds at most 1 to the total count |
| Ledger.UnknownCategoryOnlyTotals | src/utils/helpers.js:181-185 | a transaction whose category has no entry leaves the breakdown unchanged and adds its \|amount\| to the totals |
| Ledger.QuarterSummarySnoc | src/utils/helpers.js:141-186 | appending a transaction adds one loop step if it is in range, and otherwise nothing |
| Validation.ValidateFileType | src/utils/helpers.js:192-195 | accepted iff the MIME type is in the five-entry list; every accepted type is an image or a PDF |
| Validation.ValidateFileSize | src/utils/helpers.js:197-200 | accepted iff size ≤ maxSizeMB·1024·1024 |
| Validation.FileSizeMonotone | src/utils/helpers.js:197-200 | a file accepted under a limit is accepted under any larger one; the default limit is 5 242 880 bytes |
| Validation.ValidateEmail | src/utils/helpers.js:203-206 | the email check; EmailMeaning states the shape it accepts |
| Validation.EmailMeaning | src/utils/helpers.js:203-206 | the check holds iff the text has no white space, exactly one `@` with text before it, and a `.` with text on both sides after it |
| Validation.ValidateRequired | src/utils/helpers.js:208-210 | the required check; RequiredMeaning states when it fails |
| Validation.RequiredMeaning | src/utils/helpers.js:208-210 | false exactly for null, undefined and white-space-only text |
| Validation.ValidateAmount | src/utils/helpers.js:212-215 | parsed and neither NaN nor zero; AmountOfInteger and AmountNeedsDigits state what passes |
| Validation.ParseIntegerText | src/utils/helpers.js:212-215 | parseFloat reads back every integer's decimal text |
| Validation.AmountOfInteger | src/utils/helpers.js:212-215 | an integer amount is valid iff it is non-zero, so negatives are accepted |
| Validation.AmountNeedsDigits | src/utils/helpers.js:212-215 | blank input is invalid |
| Categories.GetUserCategories | src/config/categories.js:42-51 | 'landlord' gives the landlord list; anything else, including none, gives the sole-trader list |
| Categories.Find | src/config/categories.js:55 | finds an entry iff some category has that id, and then it is one with that id |
| Categories.GetCategoryById | src/config/categories.js:53-56 | the user type's entry with that id, or none when there is none |
| Categories.FindUnique | src/config/categories.js:53-56 | with unique ids the look-up returns exactly the list's entry for the id |
| Categories.SoleTraderShape | src/config/categories.js:2-21 | 19 sole-trader categories, with unique ids |
| Categories.LandlordShape | src/config/categories.js:24-37 | 12 landlord categories, with unique ids |
| Categories.TaxonomyKinds | src/config/categories.js:2-37 | every category is income or expense; 2 sole-trader and 4 landlord categories are income |
| Categories.SharedIds | src/config/categories.js:2-37 | the only ids the taxonomies share are `other_income` and `premises_costs` |
| Records.NewTransaction | src/store/useStore.js:376-382 | the new id and timestamps; businessId is the payload's own if it has one, else the current id |
| Records.Merge | src/store/useStore.js:414-418 | merging keeps id and createdAt, sets updatedAt, and takes businessId from the update when present |
| Store.TransactionsKey | src/store/useStore.js:375 | a business's transactions key never collides with the businesses or types keys |
| Store.FindType | src/store/useStore.js:480 | finds an entry of that type iff one exists |
| Store.FindTypeAppend | src/store/useStore.js:478-505 | after appending an entry, a look-up finds the old entry if there was one, else the appended one |
| Store.Store.CreateBusinessType | src/store/useStore.js:478-505 | find-or-create: returns the existing entry with the list unchanged, or appends exactly one entry (calendarElection false) and persists the list; one entry per type is kept |
| Store.Store.AddBusiness | src/store/useStore.js:508-533 | ensures a type entry exists, then appends exactly one business linked to that entry's id, leaving existing businesses unchanged, and persists |
| Store.MergeBusiness | src/store/useStore.js:539 | the spread merge; UpdateBusinesses states its effect on the list |
| Store.UpdateBusinesses | src/store/useStore.js:535-547 | same length and order; the matching business takes the update and a new updatedAt; every other business is unchanged |
| Store.UpdateUnknownBusiness | src/store/useStore.js:535-547 | an unknown id leaves the list unchanged |
| Store.Store.UpdateBusiness | src/store/useStore.js:535-547 | the business list becomes UpdateBusinesses of the old one, and it is persisted |
| Store.RemoveBusiness | src/store/useStore.js:577-591 | keeps exactly the businesses with another id, each as often as in the input, in order |
| Store.NextCurrent | src/store/useStore.js:582 | the current id is unchanged unless it was deleted; then it becomes the first remaining id, or null |
| Store.Store.DeleteBusiness | src/store/useStore.js:577-591 | removes the business, moves the current id, persists the list and drops `mtd-transactions-<id>` |
| Store.RemoveKeepsTypes | src/store/useStore.js:577-591 | after a deletion every business still names a type entry |
| Store.RemoveKeepsCurrent | src/store/useStore.js:577-591 | after a deletion the new current id still names a business |
| Store.UpdateKeepsLinks | src/store/useStore.js:535-547 | after an update, type links and the current id still resolve |
| Store.FindBusiness | src/store/useStore.js:595 | finds a business iff one has that id |
| Store.Store.SelectBusiness | src/store/useStore.js:593-612 | an unknown id changes nothing; otherwise sets the current id and user type, and loads the stored list or the type's demo list, which it then stores |
| Store.BusinessesByType | src/store/useStore.js:615-619 | exactly the businesses of that type, each as often as in the input, in order |
| Store.Store.GetBusinessesByType | src/store/useStore.js:615-619 | exactly the store's businesses of that type |
| Store.CurrentBusiness | src/store/useStore.js:621-625 | the business whose id is the current id, or null when there is none |
| Store.Store.GetCurrentBusiness | src/store/useStore.js:621-625 | in a valid store there is a current business iff there is a current id |
| Store.Store.StoredTransactions | src/store/useStore.js:375 | the stored list of a business, or empty; AddTransaction, UpdateTransaction, DeleteTransaction and SelectBusiness state their effect through it |
| Store.Store.Precheck | src/store/useStore.js:370-372 | passes iff there is a user and a non-empty current id; with no user it fails with "No user logged in" |
| Store.Store.AddTransaction | src/store/useStore.js:368-404 | fails without a user or a current business; otherwise prepends the new transaction to the stored list, stores it and displays it |
| Store.UpdateTransactions | src/store/useStore.js:413-418 | same length, order and ids; matching entries are merged and others are unchanged |
| Store.Store.UpdateTransaction | src/store/useStore.js:406-433 | the same error cases; otherwise the stored list, updated, is stored and displayed |
| Store.RemoveTransactions | src/store/useStore.js:443 | keeps exactly the entries with another id, each as often as in the input, in order |
| Store.Store.DeleteTransaction | src/store/useStore.js:435-455 | the same error cases; otherwise the stored list without that id is stored and displayed |
| TransactionForm.AvailableCategories | src/components/transactions/TransactionForm.jsx:66-70 | exactly the selected business type's categories (sole trader by default) of kind income for 'income', and of kind expense otherwise |
| TransactionForm.AvailableCategoryCounts | src/components/transactions/TransactionForm.jsx:66-70 | with no business selected (the sole-trader list) 2 income and 17 expense categories are offered; for a landlord business 4 and 8 |
| TransactionForm.ResolveBusinessId | src/components/transactions/TransactionForm.jsx:124 | the form's business id when set, else the current one; Submit states what follows from each case |
| TransactionForm.SignedAmount | src/components/transactions/TransactionForm.jsx:146-151 | the magnitude is kept; the sign is ≤ 0 for an expense and ≥ 0 otherwise |
| TransactionForm.ReceiptName | src/components/transactions/TransactionForm.jsx:142 | a receipt name is present iff a file with a non-empty name was uploaded |
| TransactionForm.Payload | src/components/transactions/TransactionForm.jsx:135-151 | the resolved business id and the form fields; the signed amount; adjustments only for expenses; a property reference only for a landlord business |
| TransactionForm.PayloadDeductible | src/components/transactions/TransactionForm.jsx:135-151 | a saved income is deductible in full; an expense with 0 ≤ p ≤ 100 lies in [0, \|amount\|]; disallowable gives 0; otherwise it is the previewed deductible; the previews sum to the amount |
| TransactionForm.PreviewDeductible | src/components/transactions/TransactionForm.jsx:426 | the previewed deductible; PayloadDeductible states that it is what an expense with private use saves |
| TransactionForm.Save | src/components/transactions/TransactionForm.jsx:153-157 | editing calls only the update and otherwise only the add; a save writes the new list under `mtd-transactions-<current id>` and displays it, a refusal records the store's error and changes nothing else; user, user type, businesses and current id stay |
| TransactionForm.Submit | src/components/transactions/TransactionForm.jsx:119-165 | no business id means nothing changes; otherwise the id is selected first (AfterReselect), the save succeeds iff a user is signed in and a business is then current, a refusal leaves the selection's state plus the error, and a save writes the add or update of that business's list to storage and the display, for a known or an unknown id |
| TransactionForm.Reselect | src/components/transactions/TransactionForm.jsx:130-133 | the current id, user type, displayed list and storage become exactly AfterReselect of the old ones: unchanged for the current or an unknown id, otherwise the selected business with its stored list or its stored demo list; user and error stay |
| TransactionForm.SelectionShowsStored | src/store/useStore.js:593-612 | after selecting a known business it is current, no stored key but its own changes, and when it was not already current its type is the user type and the displayed list is what its key now holds |
| TransactionList.FilterTransactions | src/components/transactions/TransactionList.jsx:38-47 | keeps exactly the matching transactions, each as often as in the input, as a subsequence |
| TransactionList.NoFilterKeepsAll | src/components/transactions/TransactionList.jsx:38-47 | an empty search with both filters 'all' keeps everything |
| TransactionList.FilterIdempotent | src/components/transactions/TransactionList.jsx:38-47 | filtering again changes nothing |
| TransactionList.MatchesSearch | src/components/transactions/TransactionList.jsx:39-41 | the lower-cased term occurs in the description, notes or property reference; NoFilterKeepsAll shows the empty term matches everything |
| TransactionList.Matches | src/components/transactions/TransactionList.jsx:39-45 | search, type and category all match; FilterTransactions keeps exactly these |
| TransactionList.Displayed | src/components/transactions/TransactionList.jsx:37-74 | filtered, then sorted; DisplayedIsMatching states its contents |
| TransactionList.SortTransactions | src/components/transactions/TransactionList.jsx:48-74 | a permutation ordered by the chosen key, ascending for 'asc' and descending otherwise |
| TransactionList.DisplayedIsMatching | src/components/transactions/TransactionList.jsx:38-74 | the displayed list holds exactly the matching transactions, with their multiplicities |
| TransactionList.NewestFirst | src/components/transactions/TransactionList.jsx:48-74 | by date descending, the first row is the newest |
| TransactionList.CategoryLabel | src/components/transactions/TransactionList.jsx:104 | the category's label, or the raw id when the category is not found |
| TransactionList.RowLine | src/components/transactions/TransactionList.jsx:97-108 | one transaction's line; RowLineText writes it out |
| TransactionList.RowLineText | src/components/transactions/TransactionList.jsx:97-108 | the line is the date, `"description"`, the type, `"label"`, \|amount\|, the deductible for an expense (\|amount\| otherwise) and `"notes"`, joined by commas, with the quoted texts inserted unescaped |
| TransactionList.QuotesNotEscaped | src/components/transactions/TransactionList.jsx:101-104 | because quotes are not escaped, two different transactions (text moved between the description and an unknown category id) give the same line |
| TransactionList.CsvLines | src/components/transactions/TransactionList.jsx:94-110 | the header line, then one line per displayed transaction, in order |
| TransactionList.CsvContent | src/components/transactions/TransactionList.jsx:94-110 | the lines joined by newlines; CsvHeader states how it starts |
| TransactionList.CsvHeader | src/components/transactions/TransactionList.jsx:95 | the export starts with exactly the fixed header, and is only the header when nothing is displayed |
| TransactionList.RowAmounts | src/components/transactions/TransactionList.jsx:105-106 | with p ≤ 100: 0 ≤ Tax Deductible ≤ Amount |
| TransactionList.AdjustmentsBadge | src/components/transactions/TransactionList.jsx:255-256 | for a non-zero expense with p ≤ 100, the badge shows iff the deductible differs from the amount |
| TransactionList.HasAdjustments | src/components/transactions/TransactionList.jsx:255-256 | an expense with private use or marked disallowable; AdjustmentsBadge relates it to the deductible |
| Reports.FindValue | src/components/reports/Reports.jsx:30 | the first quarter with that value, or none |
| Reports.SelectedQuarter | src/components/reports/Reports.jsx:23-30 | one of this tax year's quarters, either the one with the selected value or the current quarter |
| Reports.CurrentQuarterListed | src/components/reports/Reports.jsx:23-30 | the current quarter is among this year's quarters |
| Reports.SelectionByValue | src/components/reports/Reports.jsx:30 | selecting a quarter's value picks that quarter |
| Reports.InitialSelection | src/components/reports/Reports.jsx:23-30 | the initial selection resolves to the current quarter |
| Reports.BuildReport | src/components/reports/Reports.jsx:36-49 | taxYear is `Y/YY`; calendarElection defaults to false; userType is "Sole Trader" iff the profile says sole_trader, and "Landlord" otherwise |
| Reports.ReportTotals | src/components/reports/Reports.jsx:41-47 | the report's totals are the in-range sums; netPosition = income − deductible expenses ≥ income − expenses |
| Reports.ReportLabelNamesTaxYear | src/components/reports/Reports.jsx:37-39 | the quarter label is `Qi ` followed by the report's taxYear |
| Reports.DashWhitespace | src/components/reports/Reports.jsx:55 | replacing runs of white space never lengthens the text |
| Reports.DashKept | src/components/reports/Reports.jsx:55 | a character that is not white space is copied unchanged |
| Reports.DashLoneSpace | src/components/reports/Reports.jsx:55 | a single white-space character becomes one `-` |
| Reports.DashRemovesWhitespace | src/components/reports/Reports.jsx:55 | no white space is left |
| Reports.DashNoWhitespace | src/components/reports/Reports.jsx:55 | text without white space is unchanged |
| Reports.FileName | src/components/reports/Reports.jsx:55 | the download name; QuarterFileName writes it out for a quarter |
| Reports.QuarterFileName | src/components/reports/Reports.jsx:55 | the file name is `mtd-report-Y-qi-Y/YY.json` |
| Reports.Ranked | src/components/reports/Reports.jsx:61-67 | the matching entries with their multiplicities, in descending amount order |
| Reports.RankedCategoriesUsed | src/components/reports/Reports.jsx:61-67 | a category appears in the income (expense) list iff it is of that kind and has in-range transactions; its amount is their \|amount\| sum |
| Reports.IncomeCategories | src/components/reports/Reports.jsx:61-63 | the ranked income entries; RankedCategoriesUsed states which categories appear |
| Reports.ExpenseCategories | src/components/reports/Reports.jsx:65-67 | the ranked expense entries; RankedCategoriesUsed states which categories appear |
| Reports.RankedEntryIsOwn | src/components/reports/Reports.jsx:61-67 | every ranked entry is the breakdown entry of one supplied category |
| Reports.ShareOf | src/components/reports/Reports.jsx:215-218 | a percentage is shown iff the total is positive, and then it is amount/total·100 |
| Reports.ShareBounds | src/components/reports/Reports.jsx:262-265 | a share of a part of the total lies in [0, 100] |
| Deadlines.Schedule | src/components/dashboard/MTDDeadlineWidget.jsx:61 | the calendar table iff the current business has the election, else the standard table |
| Deadlines.TablesShape | src/components/dashboard/MTDDeadlineWidget.jsx:6-59 | each table lists Q1–Q4 on real days with strictly increasing deadlines |
| Deadlines.Ceil | src/components/dashboard/MTDDeadlineWidget.jsx:69 | the least integer ≥ x |
| Deadlines.DaysUntil | src/components/dashboard/MTDDeadlineWidget.jsx:69 | the rounded-up day difference; DaysUntilWholeDays and DaysUntilMonotone state what it counts |
| Deadlines.DaysUntilWholeDays | src/components/dashboard/MTDDeadlineWidget.jsx:69 | at any time of day, daysUntil is the number of calendar days from today to the deadline |
| Deadlines.DaysUntilMonotone | src/components/dashboard/MTDDeadlineWidget.jsx:69 | a deadline is no later than another iff it is no more days away |
| Deadlines.Annotate | src/components/dashboard/MTDDeadlineWidget.jsx:65-70 | each row paired with its daysUntil |
| Deadlines.Upcoming | src/components/dashboard/MTDDeadlineWidget.jsx:65-72 | exactly the rows at most 30 days overdue, with their multiplicities, earliest deadline first |
| Deadlines.FirstDue | src/components/dashboard/MTDDeadlineWidget.jsx:74 | the first row with daysUntil ≥ 0 |
| Deadlines.NextDeadline | src/components/dashboard/MTDDeadlineWidget.jsx:74 | the first due upcoming row; NextIsEarliestDue, NoNextWhenAllPassed and WidgetNeverOverdue state its properties |
| Deadlines.NextIsEarliestDue | src/components/dashboard/MTDDeadlineWidget.jsx:65-74 | when any deadline is still due, the next deadline is a due row of the schedule no later than any due row |
| Deadlines.NoNextWhenAllPassed | src/components/dashboard/MTDDeadlineWidget.jsx:65-74 | there is no next deadline iff every deadline has passed |
| Deadlines.DeadlineStatus | src/components/dashboard/MTDDeadlineWidget.jsx:77-82 | < 0 overdue, 0–7 urgent, 8–30 warning, > 30 normal, each both ways |
| Deadlines.StatusMonotone | src/components/dashboard/MTDDeadlineWidget.jsx:77-82 | fewer days never give a milder status |
| Deadlines.WidgetNeverOverdue | src/components/dashboard/MTDDeadlineWidget.jsx:74-82 | the next deadline shown is never overdue |
| Deadlines.StatusText | src/components/dashboard/MTDDeadlineWidget.jsx:110-115 | the status text; StatusTextInjective and StatusTextEnd show it tells day counts apart |
| Deadlines.StatusTextInjective | src/components/dashboard/MTDDeadlineWidget.jsx:110-115 | different day counts never give the same text |
| Deadlines.StatusTextEnd | src/components/dashboard/MTDDeadlineWidget.jsx:110-115 | the four text forms end differently |
| Deadlines.FindRow | src/components/dashboard/MTDDeadlineWidget.jsx:75 | the first row whose quarter equals the key, or none when no row matches |
| Deadlines.CurrentQuarterDeadline | src/components/dashboard/MTDDeadlineWidget.jsx:75 | never finds a row, because the quarter objects have no `quarter` property |
| Deadlines.IsCurrentQuarterRow | src/components/dashboard/MTDDeadlineWidget.jsx:162 | a row is highlighted when its quarter equals `currentQuarter?.quarter`; NoRowHighlighted states that this never happens |
| Deadlines.NoRowHighlighted | src/components/dashboard/MTDDeadlineWidget.jsx:162 | no row of the schedule overview is ever highlighted, because the key is always undefined |
| BusinessForms.Elected | src/components/business/AddBusinessForm.jsx:42 | true iff the value is the boolean true or the string 'true' |
| BusinessForms.NameError | src/components/business/AddBusinessForm.jsx:205-208 | the name is accepted iff it has at least two characters before trimming; an empty name is "required" |
| BusinessForms.BlankNameAccepted | src/components/business/AddBusinessForm.jsx:40-208 | a name of two or more blanks passes and is saved empty |
| BusinessForms.SoleTraderHasNoReference | src/components/business/AddBusinessForm.jsx:43-45 | a sole-trader business is never given a property reference |
| BusinessForms.AddFormType | src/components/business/AddBusinessForm.jsx:22 | the prop's type when one is given, otherwise the selector's |
| BusinessForms.AddBusinessPayload | src/components/business/AddBusinessForm.jsx:39-46 | the trimmed name, the type, the coerced election, and a trimmed property reference iff landlord with a non-empty input |
| BusinessForms.PayloadTrimmed | src/components/business/AddBusinessForm.jsx:40-44 | the saved name neither starts nor ends with white space, and the saved reference does not start with it |
| BusinessForms.SubmitAddBusiness | src/components/business/AddBusinessForm.jsx:31-56 | a rejected name changes nothing; otherwise a new type appends the entry `type-<kind>-<millis>` and persists the types, then exactly one business carrying the payload, linked to that type, is appended and persisted; everything else stays |
| BusinessForms.EditDefaults | src/components/business/EditBusinessForm.jsx:25-33 | the form is reset to the business's name, type and election |
| BusinessForms.EditBusinessPayload | src/components/business/EditBusinessForm.jsx:46-50 | the trimmed name, the unchanged type, the coerced election |
| BusinessForms.UntouchedEditKeepsBusiness | src/components/business/EditBusinessForm.jsx:25-50 | submitting the reset form unchanged (for an already trimmed name) changes only updatedAt |
| BusinessForms.EditKeepsType | src/components/business/EditBusinessForm.jsx:46-50 | an edit never changes the business type |
| BusinessForms.SubmitEditBusiness | src/components/business/EditBusinessForm.jsx:41-60 | a rejected name changes nothing; otherwise only the edited business's id is updated and the list is persisted; types, current id, transactions, user, user type and error stay |
| BusinessForms.HasOtherLandlordBusiness | src/components/business/EditBusinessForm.jsx:14 | true iff some landlord business has an id other than the edited one's |
| BusinessForms.OnlyLandlordIsNotOther | src/components/business/EditBusinessForm.jsx:14 | when the edited business is the only landlord business, there is no other one |
| BusinessForms.Toggled | src/components/business/BusinessManager.jsx:53-56 | the menu closes iff it was the open one; otherwise that menu opens |
| BusinessForms.ToggleTwice | src/components/business/BusinessManager.jsx:53-56 | toggling the same menu twice restores the state iff no menu or that menu was open |
| BusinessForms.DeleteLeavesABusiness | src/components/business/BusinessManager.jsx:39-48 | with two or more businesses with distinct ids, a deletion leaves one |
| BusinessForms.ManagerView.HandleDeleteBusiness | src/components/business/BusinessManager.jsx:36-51 | with one business, no store call and the menu stays; otherwise the store deletes only if confirmed (list, current id and both storage effects stated, everything else kept), and the menu closes |
| BusinessForms.ManagerView.HandleEditBusiness | src/components/business/BusinessManager.jsx:29-34 | the business is being edited, the edit form is shown, and the menu is closed |
| BusinessForms.ManagerView.ToggleDropdown | src/components/business/BusinessManager.jsx:53-56 | the open menu becomes Toggled of the old one |
| BusinessForms.FormatTaxYear | src/components/business/BusinessManager.jsx:66-68 | the manager's tax-year label; TaxYearLabelVersusWindows compares it with the windows the business reports on |
| BusinessForms.TaxYearLabelVersusWindows | src/components/business/BusinessManager.jsx:66-68 | the calendar label starts "1 Jan" while its windows start on 1 April; the standard label and windows agree on 6 April |
| DemoData.DemoCategoriesOutsideTaxonomy | src/data/demoData.js:70-158 | `general_admin` (sole trader) and `admin_expenses` (landlord) are outside their taxonomy; a sole-trader summary step for the `general_admin` transaction leaves the breakdown unchanged |
| DemoData.GeneralAdminNotSoleTrader | src/config/categories.js:2-21 | no sole-trader category has the id `general_admin`, so the look-up finds nothing |
| DemoData.AdminExpensesNotLandlord | src/config/categories.js:24-37 | no landlord category has the id `admin_expenses`, so the look-up finds nothing |
| DemoData.DemoDeductibles | src/data/demoData.js:15-100 | the deductible amounts of four demo expenses: 45.99 (allowable), 62.8 (20% private), 0 (disallowable), 59.85 (30% private) |

## Left out

- Firebase: authentication, Firestore, snapshots, sign-in and sign-up, `initializeAuth`,
  `switchBusinessType`, profile loading and `clearAllDemoData`. These are network I/O and session
  handling; only the demo-mode branches are modelled.
- `localStorage` and JSON: storage is a map from keys to typed lists. A stored empty list (`"[]"`) is a
  truthy string in the source, so `selectBusiness` loads it; the model does the same.
- Ids and timestamps (`Date.now()`, `toISOString()`) are parameters. Nothing is proved about id
  freshness; `DeleteLeavesABusiness` assumes distinct ids.
- Time of day and time zones: dates are whole days, and a window includes the whole of its end day.
  `DaysUntil` takes the milliseconds already elapsed today. This hides four effects of the source's clock:
  - A window's end is local midnight at the start of its end day. So from just after midnight on
    5 July, 5 October and 5 January, `getCurrentQuarter` already returns the next quarter, and from just
    after midnight on 5 April it falls back to Q1. The model still gives the ending quarter on those days.
  - A transaction date is parsed as UTC midnight, which is 01:00 local time under British Summer Time. So
    in summer a transaction dated on a window's last day (5 July, 5 October or 5 April; 30 June or
    30 September under the election) falls outside that window in the source, but inside it in the model.
  - `BuildReport`'s `period` is written from the window's local dates. The source writes the UTC date of
    each local midnight (`toISOString`), which under British Summer Time is the day before: for the
    standard Q1 of 2025 the source gives "2025-04-05 to 2025-07-04", the model "2025-04-06 to 2025-07-05".
  - `DaysUntil` counts from the deadline's midnight, which the source parses as UTC midnight. So the model
    is exact when `today` and `msIntoDay` are taken in UTC. Under British Summer Time, between 00:00 and
    01:00 local time the source counts one day more than the local calendar days.
- Floating point: amounts are exact reals, and NaN amounts are not modelled.
- `parseFloat` of the form's amount is taken as already done. The form's amount is a real.
- Number formatting (`Intl.NumberFormat`, `toFixed`, JavaScript number-to-string) is not modelled. The
  CSV's number cells go through a `showNumber` parameter, and a share is a real, not a text.
- `date-fns` date formatting is not modelled. The CSV's date cell is the `YYYY-MM-DD` text of the date.
- Text: lower-casing covers ASCII letters only. White space is the common Unicode set, not every
  character that JavaScript's `\s` matches.
- BusinessForms.NameError: a name's length is counted in Unicode code points, not in JavaScript's
  UTF-16 code units. A name made of one character outside the Basic Multilingual Plane (such as an
  emoji) has length 2 for `minLength` in the source and is accepted there, but is rejected here.
- TransactionList.SortTransactions: descriptions are compared by Unicode code point, not by UTF-16 code
  unit as JavaScript's `<` and `>` do. The two orders differ only when a character outside the Basic
  Multilingual Plane is compared with one from U+E000 to U+FFFF; "😀" sorts before "Ａ" in the source
  and after it here.
- TransactionList.SortTransactions: ties are kept in input order. The source comparator never returns 0,
  so the order of equal keys is unspecified there. Sorting on a field other than date, amount and
  description (the comparator's default branch) is not modelled.
- Reports.Ranked: the order of entries with equal amounts is not stated. The source's comparator
  returns 0 for them and `Array.prototype.sort` is stable, so they keep breakdown (taxonomy) order there.
- A category id that names an `Object.prototype` property (such as `constructor`) is not modelled.
- A missing `notes` or `propertyReference` is modelled as `''`. It behaves the same in search and in the
  CSV.
- In the transaction form, choosing a business id the store does not know leaves the selection as it
  was; the save then goes to the old current business, as in the source. TransactionForm.Submit states
  this case too.
- The transaction list's `transactions` field is not reloaded by `deleteBusiness`, as in the source.
- OCR simulation, file reading, downloads (Blob and anchor), alerts, confirms (a parameter), toasts and
  rendering are not modelled. The dashboard only displays values the reports compute.
- `getQuartersList`, `formatDate` and `formatCurrency` are display helpers and are not modelled.
- The form's `onSelectBusiness` callback in the business manager is a call into code outside the model.
