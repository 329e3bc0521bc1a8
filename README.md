# La tiendita Barrazas: cash reconciliation, modelled in Dafny

The app keeps the daily books of a small shop. Each day the operator enters:

- the gross and net sales and the charges;
- the takings by payment method (cash, ATH, debit card, credit card);
- the deposit and the till float.

From these the daily page computes three figures:

- the total by payment method;
- the collected amount (net sales plus charges);
- the balance: cash less the day's petty-cash spending, the float and the deposit, snapped to exactly 0 inside ±0.01.

The daily page then saves the day through a gate of two hard checks and five yes/no confirmations. A saved day is four tables of rows:

- 4 sales rows;
- 4 payment rows;
- 5 summary rows;
- an audit entry.

Petty-cash spending lives in its own ledger. Rows are entered on one page, where session rows can be deleted and edited, with categories kept in the browser. They are listed, filtered, sorted and edited on a second page. The vault page and the report page read the saved days back: for each day, the first sales or summary row of that day with the wanted category or label. They filter the days by an inclusive date range and total the columns. The report page also writes the days out as CSV. The staff page records cash and transfer payments per employee, with per-employee totals. Two small browser-side state machines sit next to these:

- a login session: a token and a 24-hour expiry in local storage;
- the name written into audit entries: asked once and then remembered.

## How the model is built

- **Money and numbers.** Money is `real`. A number box is `NumberText`: `Empty`, or `Typed(parsed)`, where `parsed` is what `Number.parseFloat` gives (`None` for NaN). `ParsedOrZero` is `parseFloat(x) || 0`.
- **The store.** The Supabase store is a set of classes (`Store.PettyCashTable`, `Store.DailyTables`, `Store.EmployeeTables`) whose `seq` fields the methods change. Each call takes a `fault: Option<string>`: `Some(message)` means the store refused, and then nothing changes. A listing the store sorts (`.order(...)`) is a parameter `listed`. A predicate requires it to hold exactly the table's rows, in that order when the order is by date and creation time. The staff's order by name is left open (see "## Left out"). A fetch whose error the page ignores is an `Option<seq<...>>`, where `None` is `null` data.
- **Browser inputs.** Confirmations (`window.confirm`) are `bool` parameters or a `Prompt -> bool` function. Prompt answers (`window.prompt`) are `Option<string>`. `Date.now()` is an `int` parameter.
- **Local storage.** Local storage is the class `LocalStorage.KeyValueStore`. `null` stands for a page rendered without a window.
- **The pages.** Each page is a class whose fields are the page's React state. Each handler is a method whose `ensures` gives the whole new state: the tables it writes, and every field of the page, either one by one or as the page's `State()` value compared with `old(State())` updated in the fields the handler sets. The vault's shown days and totals are given through `Consistent()`. A handler's `try` block with its reload is a method of its own (`SaveEmployee`, `SavePayment`, `SaveEntry`, `Vault.DeleteDay`). Pure computations (filters, sorts, joins, totals, CSV text) are functions, each with lemmas relating it to an independent reference: `Common.Filter`, `Common.Sum`, `Common.FindFirst`, a sort specification, a split of the CSV text.

Module by source file:

- app/daily/page.tsx: `Daily`, with the store in `Store`;
- app/caja-menor/new/page.tsx: `PettyCashEntry`;
- app/caja-menor/page.tsx: `PettyCashList`;
- app/caja-fuerte/page.tsx: `Vault`, with the read-back in `RecordJoin`;
- app/reports/page.tsx: `Reports`;
- app/empleados/page.tsx: `Employees`;
- lib/auth.ts: `Auth`;
- lib/user.ts: `UserName`;
- lib/utils.ts: `Utils`.

Shared pieces:

- `Common`: Option/Result, number boxes, filter, sum, find;
- `Text`: trim, split and join, string order, integer text;
- `DateRange`: the inclusive date-range filter;
- `LocalStorage`: the browser's key-value store.

### Quirks of the code the model keeps

- **The first hard check.** It only tests that the gross and net sales boxes are non-empty (app/daily/page.tsx:126). A box holding text that does not parse passes as 0, and its sales row stores NaN (`Daily.OnlySalesBoxesChecked`).
- **The negativity check.** Only the parsed gross and net sales are checked (app/daily/page.tsx:137). A negative payment box does not block.
- **The delete's audit entry.** The vault page writes a DELETE audit entry before deleting the day (app/caja-fuerte/page.tsx:181-196). The store's cascade then removes every audit row of that record, the new entry included, so no row of the record is left afterwards (`Vault.DeleteDay`, `Vault.VaultPage.HandleDelete`).
- **The duplicate-date warning.** It uses `.single()`, so it fires only when exactly one record has the date. Once a date holds two records, a third save is not warned about (`Daily.DuplicatePromptNeedsExactlyOne`).

## Model

| member | source | states |
|---|---|---|
| Daily.BalanceSnap | app/daily/page.tsx:47-54 | the balance differs from the raw cash − petty cash − float − deposit by under 0.01; it is 0 exactly when the raw figure is inside ±0.01, otherwise the raw figure; it is negative exactly when the raw figure is ≤ −0.01 |
| Daily.WorkedExamples | app/daily/page.tsx:38-62 | net 100 + charges 7 collect 107; cash 200, petty cash 50 and the 147.50 float leave a balance of 2.50 |
| Daily.UnparsableCountsZero | app/daily/page.tsx:39-59 | a box that does not parse gives the same derived figures as a box holding 0 |
| Daily.PettyCashTotalAfterAppend | app/daily/page.tsx:79-94 | the petty-cash total of a date is the fold over that date's ledger rows: one more row adds its value exactly when it has the date |
| Daily.PettyCashTotalNonNegative | app/daily/page.tsx:93 | with positive ledger values the petty-cash total is never negative |
| Daily.Ask | app/daily/page.tsx:144-205 | asking confirmations never yields a hard-check failure |
| Daily.AskStopsAtFirstDecline | app/daily/page.tsx:144-205 | the prompts pass exactly when every due prompt is accepted; otherwise the prompts asked are a prefix of the due ones ending at the first declined one |
| Daily.AskPassesWhenAllAccepted | app/daily/page.tsx:144-205 | the prompts pass exactly when every due prompt is accepted, and then every due prompt was asked |
| Daily.AskDeclinedAtPrefix | app/daily/page.tsx:144-205 | a declined run asked a prefix of the due prompts, every one accepted except the last |
| Daily.AskInSteps | app/daily/page.tsx:144-205 | asking the due prompts is asking net>gross, mismatch, negative balance, final confirmation and duplicate date in that order, skipping those not due |
| Daily.DuePromptsInOrder | app/daily/page.tsx:144-205 | the due prompts are exactly those whose condition holds, the final confirmation always among them, in the fixed order |
| Daily.GatePassesIffAllAccepted | app/daily/page.tsx:126-205 | the save goes ahead exactly when both hard checks pass and every due prompt is accepted, and then every due prompt was asked |
| Daily.DeclineStopsTheSave | app/daily/page.tsx:144-205 | a declined prompt was due, every earlier one was due and accepted, and none after it is asked |
| Daily.OnlySalesBoxesChecked | app/daily/page.tsx:126-141 | only emptiness of the two sales boxes and negativity of their parsed values block; unparsable text passes and a negative payment box does not block |
| Daily.SavedRowsAgree | app/daily/page.tsx:229-266 | a save writes 4 sales, 4 payment and 5 summary rows of the new record; the last sales row is the collected amount; the payment rows sum to TOTAL VENTAS; BALANCE is the snapped cash − GASTOS MENORES − REGISTRADORA − DEPOSITO; only the first three summary rows are flagged calculated |
| Daily.DuplicatePromptNeedsExactlyOne | app/daily/page.tsx:110-116 | the duplicate-date prompt is due when exactly one record has the date, and no longer once a second one is added |
| Daily.SavedMeansComplete | app/daily/page.tsx:217-300 | a save succeeds exactly when the record, sales, payment and summary writes all succeed, whatever the audit write does; a failed sales write leaves the record row in place and no sales rows |
| Daily.DailyPage.constructor | app/daily/page.tsx:11-36 | the page opens with every amount "0.00", the float "147.50", no petty cash, no error |
| Daily.DailyPage.Edit | app/daily/page.tsx:20-33 | a box change replaces the form and nothing else |
| Daily.DailyPage.LoadPettyCash | app/daily/page.tsx:74-100 | the petty-cash figure becomes the fold over the date's ledger rows, or 0 when the query fails |
| Daily.DailyPage.CheckDateExists | app/daily/page.tsx:107-118 | the duplicate flag becomes whether exactly one record has the date |
| Daily.DailyPage.CheckBeforeSave | app/daily/page.tsx:125-205 | the checks, run step by step in the source's order, give the gate outcome |
| Daily.DailyPage.HandleSave | app/daily/page.tsx:120-307 | a blocked or declined save writes nothing; a save that passes writes record, sales, payments, summary and audit in order, stopping at the first store error, which becomes the page error |
| Daily.DailyPage.WriteDay | app/daily/page.tsx:207-300 | the ordered inserts: each table grows by its rows while no earlier write failed; the audit entry's own failure is ignored |
| PettyCashEntry.ReadCategories | app/caja-menor/new/page.tsx:59-70 | the saved category list, or ["Payroll"] when none is saved, which is then saved |
| PettyCashEntry.AddedCategory | app/caja-menor/new/page.tsx:72-81 | a category is added exactly when the trimmed text is non-blank and not yet listed, and it is the trimmed text |
| PettyCashEntry.AddedCategoryKeepsListClean | app/caja-menor/new/page.tsx:72-81 | adding keeps the list free of duplicates and blanks, and the same text added again adds nothing |
| PettyCashEntry.SubmitError | app/caja-menor/new/page.tsx:181-195 | the form is accepted exactly when date, category, name and value are filled, the category is not "__new__", an open new-category box is not blank, and the value parses above 0 |
| PettyCashEntry.SubmitErrorOrder | app/caja-menor/new/page.tsx:181-195 | a missing field is reported before a bad value |
| PettyCashEntry.BlankNamePasses | app/caja-menor/new/page.tsx:181-215 | a name of spaces passes the emptiness check and is stored trimmed to "" |
| PettyCashEntry.TotalAfterAppend | app/caja-menor/new/page.tsx:220-230 | appending a record adds its value to the session total |
| PettyCashEntry.TotalAfterDelete | app/caja-menor/new/page.tsx:89-94 | deleting by id takes exactly the values of the records with that id off the total |
| PettyCashEntry.TotalAfterEdit | app/caja-menor/new/page.tsx:136-150 | editing the record with an id moves the total by the change of its value |
| PettyCashEntry.NewEntryPage.constructor | app/caja-menor/new/page.tsx:27-56 | the page opens on today's date with empty fields, no categories, no session records and no edit open |
| PettyCashEntry.NewEntryPage.LoadCategories | app/caja-menor/new/page.tsx:59-70 | the page's categories are the saved list or ["Payroll"], which is then saved |
| PettyCashEntry.NewEntryPage.SelectCategory | app/caja-menor/new/page.tsx:302-310 | "__new__" opens the new-category box; any other choice selects that category; no other field changes |
| PettyCashEntry.NewEntryPage.CancelNewCategory | app/caja-menor/new/page.tsx:353-357 | the box closes and the typed text and the category are cleared; no other field changes |
| PettyCashEntry.NewEntryPage.AddNewCategory | app/caja-menor/new/page.tsx:72-81 | an accepted category is appended, saved and selected and the box is closed; otherwise neither the page nor the saved list changes |
| PettyCashEntry.NewEntryPage.CheckForm | app/caja-menor/new/page.tsx:181-195 | the checks, in the source's order, give the form's first complaint |
| PettyCashEntry.NewEntryPage.HandleSubmit | app/caja-menor/new/page.tsx:178-248 | a refused form sets only its message; a store error writes nothing and sets only the error and `saving`; otherwise exactly one row with the trimmed fields, value above 0, is stored and appended to the session list, name and value are cleared, success set, every other field (date, category, edit form, categories) kept |
| PettyCashEntry.NewEntryPage.SaveEntry | app/caja-menor/new/page.tsx:197-247 | the insert either fails, changing only the error and `saving`, or stores the row and appends it to the session list, clears name and value and sets success |
| PettyCashEntry.NewEntryPage.HandleDeleteSessionRecord | app/caja-menor/new/page.tsx:83-100 | after confirmation and a successful store delete the record with the id leaves both the store and the session list; otherwise neither changes; no other field changes |
| PettyCashEntry.NewEntryPage.HandleEditSessionRecord | app/caja-menor/new/page.tsx:102-110 | the edit form holds the record's fields, the value as its text, which parses back to the value; no other field changes |
| PettyCashEntry.NewEntryPage.HandleSaveEdit | app/caja-menor/new/page.tsx:112-158 | without an open edit nothing happens; a value not above 0 or a store error writes nothing and sets only the error; otherwise the record with the id gets the edited fields in store and session list, the edit closes and the error clears; no other field changes |
| PettyCashEntry.NewEntryPage.HandleCancelEdit | app/caja-menor/new/page.tsx:160-164 | the edit closes, its form is emptied and the error cleared; no other field changes |
| PettyCashList.FilteredRecordsSpec | app/caja-menor/page.tsx:166-185 | the filters keep exactly the rows inside the inclusive date bounds and of the category (unless "__all__"), in their order |
| PettyCashList.ClearedFiltersShowAll | app/caja-menor/page.tsx:166-185 | with no bounds and "__all__" every row is shown |
| PettyCashList.TotalOfShownRows | app/caja-menor/page.tsx:198 | `totalGeneral` is the ledger total less the rows the filters hide |
| PettyCashList.NoLessRecentTotal | app/caja-menor/page.tsx:190-196 | the comparator orders any two records one way or the other |
| PettyCashList.NoLessRecentTransitive | app/caja-menor/page.tsx:190-196 | the comparator is transitive |
| PettyCashList.InsertByRecency | app/caja-menor/page.tsx:190-196 | inserting a record adds exactly that record to the multiset |
| PettyCashList.SortByRecency | app/caja-menor/page.tsx:190-196 | the sort is a permutation |
| PettyCashList.InsertKeepsSorted | app/caja-menor/page.tsx:190-196 | inserting into a list ordered newest first keeps it ordered |
| PettyCashList.SortByRecencySorted | app/caja-menor/page.tsx:190-196 | the sorted list is by date descending, then creation time descending, and a permutation |
| PettyCashList.SortOfSorted | app/caja-menor/page.tsx:190-196 | a list already in that order is left as it is |
| PettyCashList.FilterKeepsSorted | app/caja-menor/page.tsx:166-196 | filtering a list ordered newest first keeps it ordered |
| PettyCashList.ShownOrderIsLoadedOrder | app/caja-menor/page.tsx:166-196 | for rows already newest first, the page's sort leaves the filtered rows in their loaded order |
| PettyCashList.ListingExists | app/caja-menor/page.tsx:68-72 | every ledger has a listing newest first, so the listing the page loads can always exist |
| PettyCashList.EditError | app/caja-menor/page.tsx:123-132 | an edit is accepted exactly when the value parses above 0 and date, category and name are filled |
| PettyCashList.EditCheckOrder | app/caja-menor/page.tsx:123-132 | this page reports the bad value before the missing name, where the entry form reports the missing field |
| PettyCashList.ListPage.constructor | app/caja-menor/page.tsx:28-43 | the page opens loading, with no rows, no edit and cleared filters |
| PettyCashList.ListPage.LoadCategories | app/caja-menor/page.tsx:46-57 | the saved category list, or ["Payroll"] saved; no other field changes |
| PettyCashList.ListPage.LoadRecords | app/caja-menor/page.tsx:64-88 | the rows become the store's listing, newest first, or stay as they were on a store error; loading ends; no other field changes; after a load the shown rows are the filtered rows in loaded order |
| PettyCashList.ListPage.HandleDelete | app/caja-menor/page.tsx:90-107 | after confirmation the row with the id is deleted and the rows reloaded from the new listing; a store error is alerted and changes neither the table nor the page |
| PettyCashList.ListPage.HandleEdit | app/caja-menor/page.tsx:109-118 | the edit form holds the record's fields, the value as its text, and the error is cleared; no other field changes |
| PettyCashList.ListPage.HandleSaveEdit | app/caja-menor/page.tsx:120-157 | without an open edit nothing happens; a refused edit or a store error writes nothing and sets only the error; otherwise the row with the id gets the edited fields, the rows are reloaded from the new listing and the edit closes; filters and categories kept |
| PettyCashList.ListPage.HandleCancelEdit | app/caja-menor/page.tsx:159-163 | the edit closes, its form is emptied and the error cleared; no other field changes |
| PettyCashList.ListPage.ClearFilters | app/caja-menor/page.tsx:200-204 | the filters are cleared, nothing else changes, and `totalGeneral` becomes the total of every row |
| DateRange.ByDateRangeIsFilter | app/caja-fuerte/page.tsx:114-125 | the two chained bound filters are one filter by the inclusive range, an empty bound not applied |
| DateRange.NoBoundsKeepsAll | app/caja-fuerte/page.tsx:117-125 | with both bounds empty the list is unchanged |
| RecordJoin.SalesLookupFirstMatch | app/reports/page.tsx:67-70 | a sales lookup reads the amount of the first matching row |
| RecordJoin.SummaryLookupFirstMatch | app/reports/page.tsx:71-73 | a summary lookup reads the amount of the first matching row |
| RecordJoin.LookupMissingIsZero | app/caja-fuerte/page.tsx:87-91 | with no matching row, or no rows fetched, a lookup reads 0 |
| RecordJoin.SalesReadAfter | app/reports/page.tsx:67-70 | a lookup in a table grown by new rows, none of the old ones matching, reads the first matching new row |
| RecordJoin.SummaryReadAfter | app/reports/page.tsx:71-73 | the same for summary rows |
| RecordJoin.SavedSalesReadBack | app/daily/page.tsx:229-238 | a saved day's sales rows read back as its charges and its collected amount |
| RecordJoin.SavedTotalsReadBack | app/daily/page.tsx:255-266 | a saved day's summary rows read back as its total by method and its petty cash |
| RecordJoin.SavedBalanceReadBack | app/daily/page.tsx:255-266 | a saved day's summary rows read back as its balance and its deposit |
| RecordJoin.SavedDayReadsBack | app/caja-fuerte/page.tsx:83-91 | save then view: a day the daily page saved reads back exactly the figures the daily page computed |
| Vault.ProcessRecords | app/caja-fuerte/page.tsx:83-104 | one row per daily record, in their order, with its id, date, day name and creation time |
| Vault.ProcessRecordReadsBack | app/caja-fuerte/page.tsx:83-91 | filtering a record's rows and then finding reads the same figures as finding the record's first row directly, the balance under "BALANCE" or "CAJA FUERTE" |
| Vault.TotalsAppend | app/caja-fuerte/page.tsx:130-136 | no rows give zero totals; each total grows by the row's own figure |
| Vault.TotalsPartition | app/caja-fuerte/page.tsx:130-136 | the totals of the shown and of the hidden days add up to the totals of all days |
| Vault.DeleteDay | app/caja-fuerte/page.tsx:181-202 | the name is looked up (and remembered) once; the DELETE audit entry with that name, the date and the day name is appended unless its write fails; a failed delete changes no other table; a successful one removes exactly the day's rows from the records, sales, payment, summary and audit tables (the new entry included) and keeps every row of other days |
| Vault.VaultPage.constructor | app/caja-fuerte/page.tsx:30-45 | the page opens loading with no rows, no bounds and zero totals |
| Vault.VaultPage.ApplyFilters | app/caja-fuerte/page.tsx:114-139 | the shown days are exactly the days in range, in their order, and the totals are their sums |
| Vault.VaultPage.SetFilters | app/caja-fuerte/page.tsx:51-53 | a bound change re-runs the filter, so shown days and totals stay consistent |
| Vault.VaultPage.ClearFilters | app/caja-fuerte/page.tsx:141-144 | afterwards every day is shown and counted |
| Vault.VaultPage.LoadRecords | app/caja-fuerte/page.tsx:55-112 | the rows become the joined days, newest first, one per record; a failed listing keeps the rows |
| Vault.VaultPage.HandleDelete | app/caja-fuerte/page.tsx:169-212 | unconfirmed, nothing changes; confirmed, the tables change as in `DeleteDay`; a delete error is alerted with "❌" and leaves the page as it was; a successful delete alerts success and reloads: the rows are the joined days of the new listing (or kept when the listing fails), shown days and totals consistent with them, loading over, bounds kept |
| Reports.BuildReport | app/reports/page.tsx:66-85 | one report row per daily record, in their order, with its id, date and day name |
| Reports.ReportAgreesWithVault | app/reports/page.tsx:66-85 | the report and the vault page show the same charges, total sales, collected amount and deposit for a day |
| Reports.ReportOfSavedDay | app/reports/page.tsx:66-85 | a day the daily page saved is reported with the figures the daily page computed |
| Reports.FilteredDataSpec | app/reports/page.tsx:96-112 | the filtered rows are exactly the rows in range, in order; no bounds keep all |
| Reports.TotalsAppend | app/reports/page.tsx:122-131 | each column total is the fold of its column: zeros for no rows, growing by each row's figure |
| Reports.CsvTable | app/reports/page.tsx:137-155 | the header, one row per filtered day, then the TOTAL row starting "", "TOTAL": filtered count + 2 rows of 7 cells |
| Reports.Lines | app/reports/page.tsx:157 | one line per row |
| Reports.HeadersPlain | app/reports/page.tsx:137 | no header holds a comma or a line break |
| Reports.CsvCellsPlain | app/reports/page.tsx:138-155 | with plain dates, day names and formatted figures every cell is plain |
| Reports.LinesReadBack | app/reports/page.tsx:157 | plain rows joined by "," and "\n" split back into the same lines and cells |
| Reports.CsvReadsBack | app/reports/page.tsx:137-157 | the CSV text splits into filtered count + 2 lines, each into its 7 cells |
| Reports.CsvFileNameParts | app/reports/page.tsx:163-164 | the file name carries `_start_a_end` exactly when both bounds are set |
| Reports.RangedName | app/reports/page.tsx:163-164 | with both bounds the name splits into prefix, start, "a", end, day |
| Reports.PlainName | app/reports/page.tsx:163-164 | with a bound missing the name splits into prefix and day |
| Reports.ReportsPage.constructor | app/reports/page.tsx:23-29 | the page opens loading with no rows and no bounds |
| Reports.ReportsPage.LoadReports | app/reports/page.tsx:35-94 | the rows become the report of every day, newest first; a failed listing keeps them |
| Reports.ReportsPage.ClearFilters | app/reports/page.tsx:116-119 | afterwards every day is in the report and its totals |
| Employees.FilteredPaymentsSpec | app/empleados/page.tsx:195-211 | the filters keep exactly the payments in range and of the employee (unless "__all__"), in order |
| Employees.TotalIsAllPayments | app/empleados/page.tsx:216-227 | cash plus transfer is the sum of all the employee's filtered payments |
| Employees.SelectedCardCoversFiltered | app/empleados/page.tsx:206-227 | with one employee selected, that card totals every filtered payment |
| Employees.CardVisibility | app/empleados/page.tsx:470-476 | a card is hidden exactly when a specific employee is selected and it is someone else, and a hidden card has no filtered payments |
| Employees.PaymentError | app/empleados/page.tsx:136-145 | a payment is accepted exactly when employee, date and amount are filled and the amount parses above 0; the missing-field message exactly when one is empty |
| Employees.EmployeeNameError | app/empleados/page.tsx:103-106 | a name is accepted exactly when it has a non-blank character |
| Employees.EmployeesPage.constructor | app/empleados/page.tsx:32-64 | the page opens loading on today's date, cash selected, filters cleared |
| Employees.EmployeesPage.LoadData | app/empleados/page.tsx:67-98 | the staff, then the payments, as the store lists them; a failed listing keeps what it would have replaced (and the payments after it) and shows its message; loading ends; no other field changes |
| Employees.EmployeesPage.HandleAddEmployee | app/empleados/page.tsx:100-131 | a blank name stores nothing and sets only its message; otherwise as `SaveEmployee` |
| Employees.EmployeesPage.SaveEmployee | app/empleados/page.tsx:108-130 | a store error stores nothing and sets only the error and `saving`; otherwise the trimmed name is stored, the box cleared, success set, the lists reloaded as in `LoadData` with the error cleared first, and no other field changes |
| Employees.EmployeesPage.HandleAddPayment | app/empleados/page.tsx:133-174 | a refused form stores nothing and sets only its message; otherwise as `SavePayment` with one payment of the selected employee, the trimmed date, the type and the parsed amount |
| Employees.EmployeesPage.SavePayment | app/empleados/page.tsx:147-173 | a store error stores nothing and sets only the error and `saving`; otherwise the payment is stored, the amount cleared, success set, the lists reloaded as in `LoadData` with the error cleared first, and no other field changes |
| Employees.EmployeesPage.HandleDeletePayment | app/empleados/page.tsx:176-193 | unconfirmed, nothing changes; a store error is alerted and changes neither the table nor the page; otherwise the payment with the id is deleted and the lists reloaded as in `LoadData` |
| Employees.EmployeesPage.ClearFilters | app/empleados/page.tsx:251-255 | the filters are cleared and nothing else changes; afterwards every payment is shown and every card visible |
| Auth.WrongUserRefused | lib/auth.ts:21-24 | a trimmed user name other than "yaz" is refused whatever the password |
| Auth.RightCredentialsAccepted | lib/auth.ts:27-29 | "yaz" with the trimmed password "0306$$" is accepted |
| Auth.AcceptedIffValid | lib/auth.ts:19-52 | with a digest that tells texts apart, a login succeeds exactly when trimmed user and trimmed password are the valid ones |
| Auth.IsAuthenticated | lib/auth.ts:55-75 | without a window false; otherwise whether both keys are set and unexpired, removing both keys when expired |
| Auth.SetAuthenticated | lib/auth.ts:78-87 | the token and the expiry now + 24 h are written |
| Auth.Logout | lib/auth.ts:90-95 | both keys are removed |
| Auth.SessionLasts | lib/auth.ts:82-86 | a session opened at t holds, untouched, at every check up to t + 86 400 000 ms |
| Auth.SessionExpires | lib/auth.ts:66-72 | after that the check fails and both keys are gone |
| Auth.LoggedOut | lib/auth.ts:93-94 | after logout no check succeeds |
| Auth.MissingKeyRefused | lib/auth.ts:58-63 | a missing or empty key fails the check and changes nothing |
| Auth.LiveSessionKept | lib/auth.ts:66-74 | an unexpired session passes and the store is unchanged |
| Auth.PassedExpiryRemoved | lib/auth.ts:66-72 | a passed expiry fails and removes exactly the two keys |
| Auth.UnparsableExpiryNeverExpires | lib/auth.ts:66-67 | an expiry that does not parse never expires |
| Auth.TextsNonEmpty | lib/auth.ts:82-86 | the written token and expiry are never empty, so they count as present |
| Text.ParseIntOfToString | lib/auth.ts:66-86 | the expiry written as decimal text parses back to the same number |
| UserName.GetUserName | lib/user.ts:6-20 | without a window "Sistema"; otherwise the stored name, or the trimmed prompt answer, stored, or "Usuario Anónimo" |
| UserName.SetUserName | lib/user.ts:22-25 | the trimmed name is stored |
| UserName.ClearUserName | lib/user.ts:27-30 | the name is removed |
| UserName.StoredNameReturned | lib/user.ts:9-10 | a stored non-empty name is returned without a prompt or a store change |
| UserName.AnswerRemembered | lib/user.ts:13-17 | a non-blank answer is stored and returned trimmed, and the next lookup returns it without asking |
| UserName.BlankAnswerForgotten | lib/user.ts:13-19 | a blank or cancelled answer gives "Usuario Anónimo", stores nothing, and the next lookup asks again |
| UserName.SetThenGet | lib/user.ts:22-25 | after setting a name the lookup returns it trimmed, unless it was blank, and then it asks |
| UserName.ClearThenGet | lib/user.ts:27-30 | after clearing, the next lookup asks |
| Utils.FormatDateGuards | lib/utils.ts:8-12 | "" gives ""; a text without non-empty year, month and day parts is returned as it is |
| Utils.FewDashesUnchanged | lib/utils.ts:11-12 | a text without a dash is returned as it is |
| Utils.FormatDateOfParts | lib/utils.ts:11-18 | a `YYYY-MM-DD` text is spelled out from exactly its year, month and day |
| Utils.SpanishDayName | lib/utils.ts:21-23 | the name is one of the seven Spanish weekday names |
| Utils.DayNameRoundTrip | lib/utils.ts:22 | each weekday 0..6 (Sunday first) has its own name, which gives the weekday back |
| Store.WithoutId | app/caja-menor/new/page.tsx:94 | the rows left hold no row with the id and every row without it |
| Store.WithEdit | app/caja-menor/new/page.tsx:136-150 | same length, ids and creation times; the rows with the id get the new fields, the others are unchanged |
| Store.WithoutKey | app/caja-fuerte/page.tsx:199-200 | the rows left hold no row of the key and every row with another key |
| Store.PettyCashTable.Insert | app/caja-menor/new/page.tsx:206-217 | the stored row comes back, or the error and no change |
| Store.PettyCashTable.Update | app/caja-menor/page.tsx:137-147 | the rows with the id get the new fields, or nothing changes on an error |
| Store.PettyCashTable.Delete | app/caja-menor/page.tsx:97-99 | the rows with the id go, or nothing changes on an error |
| Store.DailyTables.InsertRecord | app/daily/page.tsx:217-226 | the new record comes back and is appended, or the error and no change |
| Store.DailyTables.InsertSales | app/daily/page.tsx:240-241 | the sales rows are appended, or nothing changes on an error |
| Store.DailyTables.InsertPayments | app/daily/page.tsx:251-252 | the payment rows are appended, or nothing changes on an error |
| Store.DailyTables.InsertSummary | app/daily/page.tsx:268-269 | the summary rows are appended, or nothing changes on an error |
| Store.DailyTables.InsertAudit | app/daily/page.tsx:273-294 | the audit entry is appended, or nothing changes on an error |
| Store.DailyTables.DeleteRecord | app/caja-fuerte/page.tsx:199-202 | the record goes with every sales, payment, summary and audit row of it, or nothing changes on an error |
| Store.EmployeeTables.InsertEmployee | app/empleados/page.tsx:113-117 | the employee is appended, or nothing changes on an error |
| Store.EmployeeTables.InsertPayment | app/empleados/page.tsx:152-159 | the payment is appended, or nothing changes on an error |
| Store.EmployeeTables.DeletePayment | app/empleados/page.tsx:182-184 | the payment with the id goes, or nothing changes on an error |
| LocalStorage.KeyValueStore.SetItem | lib/auth.ts:85-86 | the key maps to the value afterwards, the other keys unchanged |
| LocalStorage.KeyValueStore.RemoveItem | lib/auth.ts:93-94 | the key is gone afterwards, the other keys unchanged |
| LocalStorage.CategoryStorage.Save | app/caja-menor/new/page.tsx:76 | the saved category list is the given one |

## Left out

- Rendering, styling, routing and the `setTimeout` calls that hide a success banner or navigate home. The success flags are set and never cleared in the model.
- The store's transport, its error codes (42P01, PGRST116) and the difference between a thrown error and a returned one. A failed call is `Some(message)`. The missing transaction around the daily save is modelled only as "earlier writes stay".
- The order in which the store returns rows with equal sort keys. Listings are parameters constrained to hold the table's rows in the requested order, and ties may come in any order.
- Employees.ListedByName: the staff listing (`.order("name")`, app/empleados/page.tsx:75) is only required to hold exactly the table's rows. The database sorts names by its own collation, which no code sets, so the model promises no name order.
- `localeCompare` in the petty-cash list's sort (app/caja-menor/page.tsx:192) is modelled as code-point order (`Text.StrLt`). Both agree on the `YYYY-MM-DD` dates it compares; locale collation of other text is not modelled.
- Daily.DailyPage.LoadPettyCash: a ledger row's value is never null in the model, so `record.value || 0` (app/daily/page.tsx:93) is the value itself. The record type declares `value: number`, and both pages store only parsed values above 0, so the `|| 0` default never applies to a row the app writes. The same holds for `Daily.PettyCashTotal`.
- The `.in("record_id", ids)` restriction of the vault and report fetches. Every lookup matches a listed record's id, so rows of other records never change a figure.
- `err instanceof Error ? err.message : "..."`: the fallback message for a thrown non-`Error` value. Store errors always carry a message in the model.
- The JSON encoding of the saved category list, and a saved list that is not valid JSON. The list is stored as a sequence.
- Floating-point arithmetic: money is exact `real`. `toFixed(2)` is a parameter `fmt`. `Number.parseFloat` is the `parsed` field of a number box.
- `toLocaleDateString` (the Spanish long date and weekday) and `new Date(...)`. The daily page's day name is a parameter of the save. `formatDate`'s success path calls a parameter `spell(year, month, day)`. `getSpanishDayName` takes the weekday number `getDay()` would give.
- The SHA-256 digest: a parameter `hash`, with `None` for a failed digest call. The `btoa` encoding of the token: the model stores the text before encoding.
- Timestamps are `int` milliseconds. Comparing `created_at` values as ISO strings through `new Date` is modelled as comparing those integers.
- `console` logging.
- The record view and edit pages, the home page, the login page, the auth guard and the hash test page. These are not part of this model, including the edit page's change detection and its UPDATE audit entry.
