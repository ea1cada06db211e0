# Finance tracker rules, modelled in Dafny

This project models the decision and aggregation logic of a small personal
finance tracker, a Next.js application that keeps its transactions,
categories and profiles in Supabase. Every transaction carries two
categories: a *type* (category 1, with the names "Income", "Expense",
"Loan" and "Settlement" given a meaning) and a *source* (category 2, such as
"Groceries"). The modules are:

- `Ledger` holds the rows the pages fetch, query outcomes (`Fetch`) and the
  messages the pages show (`Notice`).
- `Text` covers JavaScript's `String.prototype.trim`, the rendering of a
  whole number in a template literal (`Show`) and the sign and leading
  digits that `parseFloat` reads (`ParseNumber`). It fixes the value read
  from every readable input and proves that rendering then parsing returns
  the number.
- `Tally` specifies the keyed accumulator `acc[k] = (acc[k] || 0) + v` that
  several pages build. Each key's weight is the sum of the values fed for
  it, and keys are listed in order of first appearance. A proof shows that
  the per-key weights add up to the total fed.
- `Dashboard` models the dashboard's `loadData` pass:
  - the four type totals;
  - the 12-month Income/Expense series, seeded with zeros and listed oldest
    first;
  - the expense breakdown by source;
  - the bank-balance change since the profile's snapshot instant.

  It also holds the page state (`DashboardState`) and the bank card. The pass
  is a loop method, `ProcessTransactions`, proved equal to the specification
  function `View`. The properties are proved about `View`.
- `Reports` covers the report page's period totals (a loop), the chips, and
  the PDF summary and table.
- `Export` is the spreadsheet mapping. The reports page and the
  transactions page share it.
- `Admin` is category management:
  - usage counts (a loop), proved equal to each category's references
    through both columns;
  - the delete guard and the delete button;
  - the add flow, including trimming and the duplicate-key message;
  - each manager's filter.
- `Transactions` covers the entry form (`EntryPage.HandleSubmit`), the card
  styling and the amount sign.
- `Profile` covers the password change (`PasswordForm`) and the settings
  save. A proof connects the save to the dashboard: right after a save, the
  bank card shows the entered balance, provided every existing row was
  created at or before the instant the save records.
- `Middleware` is the route guard and its matcher.

Amounts are whole numbers (`int`). A calendar month is the integer
`year * 12 + month`, and an instant (`created_at`, `balance_updated_at`) is
an integer ordered like the instants. Each storage call is modelled by what
it returns: a `Fetch` outcome or an optional error, passed in as a
parameter. Each write is modelled by the record it would send. A user's
confirmation is a boolean parameter, and the clock's reading is an integer
parameter (`now`).

One behaviour of the dashboard departs from its evident intent; it is
described under "## Findings". The dashboard fetches only rows dated in the
oldest chart month or later, and it computes the balance change over those
rows. So an entry dated earlier than that never reaches the bank card, even
when it was created after the snapshot.

## Model

| member | source | states |
|---|---|---|
| Dashboard.ProcessTransactions | src/app/page.js:279-341 | the one-pass loop produces exactly `View`: the four type totals, the twelve-month series, the expense breakdown and the balance change |
| Dashboard.SeedMonths | src/app/page.js:286-291 | the seeded month map has exactly the twelve months from eleven months ago to the current month, each at Income 0 and Expense 0 |
| Dashboard.AddToMonth | src/app/page.js:306-309 | only a row whose month is a seeded key changes that month, Income rows change only income and Expense rows only expense, and no key is added |
| Dashboard.AddExpense | src/app/page.js:310-313 | only an Expense row with a non-empty source name adds to the breakdown map, under that name, and a new key is appended in creation order |
| Dashboard.SortedMonths | src/app/page.js:333-335 | listing the seeded map by month gives the series oldest first |
| Dashboard.CategoryList | src/app/page.js:337-340 | the breakdown lists each map key once, in creation order, with its accumulated value |
| Dashboard.DashboardState.LoadData | src/app/page.js:248-377 | the profile fields are stored even when the transaction query fails; a failed query leaves every derived field unchanged; a successful one stores `View`, and the bank card (line 377) shows `LiveBalance` |
| Dashboard.UnrecognisedTypeIgnored | src/app/page.js:300-303 | a row whose type name is none of the four exact names changes no total, no month and not the balance |
| Dashboard.MonthSeriesShape | src/app/page.js:286-291 | the series always has twelve entries, one per month in the window, strictly ascending, ending at the current month |
| Dashboard.EmptyMonthSeries | src/app/page.js:286-291 | with no rows, every one of the twelve months is still present at zero |
| Dashboard.OutOfWindowRow | src/app/page.js:306 | a row outside the window changes no month entry but still counts in its type's total |
| Dashboard.OnlyIncomeExpenseMoveMonths | src/app/page.js:307-308 | a row that is neither Income nor Expense never changes the month series |
| Dashboard.IncomeRowMovesItsMonth | src/app/page.js:307 | an Income row in the window adds its amount to its own month's income and to nothing else |
| Dashboard.BreakdownKeys | src/app/page.js:310-313 | the breakdown's names are distinct, and a name is listed exactly when some Expense row has it as a non-empty source name; nothing is pre-seeded |
| Dashboard.BreakdownAddsUp | src/app/page.js:310-313 | the breakdown's values plus the expenses with no source name equal the Expense total |
| Dashboard.NoSnapshotNoChange | src/app/page.js:316 | with no snapshot instant, the balance change is 0 |
| Dashboard.EarlierRowsIgnored | src/app/page.js:322 | rows created at or before the snapshot never affect the live balance |
| Dashboard.ChangeByType | src/app/page.js:322-326 | the change is Income minus Expense minus Settlement over the rows created strictly after the snapshot, and Loan never counts |
| Dashboard.ReconciliationExample | src/app/page.js:377 | a 1000 snapshot with an Income of 200 entered after it and an Expense of 50 entered before it shows 1200 |
| Dashboard.QueryWindow | src/app/page.js:261-273 | the query returns only rows of the input, each dated in the oldest chart month or later, and keeps every such row |
| Dashboard.QueryWindowAppend | src/app/page.js:273 | the query of a concatenation is the query of each part in turn, so kept rows stay in order and are kept once |
| Dashboard.QueryWindowOne | src/app/page.js:273 | a single row is kept exactly when it is dated in the oldest chart month or later |
| Dashboard.BackdatedEntryMissed | src/app/page.js:261-274 | an entry dated before the window never changes the balance change, whenever it was created |
| Dashboard.LaterEntryCounts | src/app/page.js:316-326 | over the whole history, an entry created after the snapshot moves the balance change by its signed amount, whatever its date |
| Dashboard.BackdatedIncomeExample | src/app/page.js:273 | an Income of 100 dated twelve months back and created after the snapshot gives a change of 0 over the fetched rows and of 100 over the whole history |
| Tally.SumOverKeys | src/app/page.js:312 | summing the accumulator's per-key values over its keys gives the total of all values fed |
| Tally.Keys | src/app/admin/page.js:182-183 | the accumulator's keys are distinct, and a key is present exactly when some value was fed for it |
| Tally.PositiveWeight | src/app/admin/page.js:182-183 | with positive increments, a key has a positive count exactly when it is present |
| Reports.PeriodTotals | src/app/reports/page.js:73-79 | the loop's income and expense are the sums of the rows whose type name is exactly "Income" and exactly "Expense" |
| Reports.OtherTypesIgnored | src/app/reports/page.js:76-77 | a row with another type name, or with none, changes neither period total |
| Reports.ReportState.FetchReport | src/app/reports/page.js:67-80 | on a fetch error, the alert is shown and the rows and totals are unchanged; otherwise the rows are stored with their totals |
| Reports.ChipLabels | src/app/reports/page.js:209-221 | three chips, labelled Income, Expense and Net in that order |
| Reports.PdfSummary | src/app/reports/page.js:117-123 | three summary lines, labelled Total Income, Total Expense and Net Balance in that order |
| Reports.SummaryReadsBack | src/app/reports/page.js:117-123 | after each label, the currency and the space, the chips and the summary lines read back as income, expense and income minus expense |
| Reports.NetShownAlike | src/app/reports/page.js:119-121 | both the Net chip and the PDF's Net Balance show income minus expense |
| Reports.MoneyText | src/app/reports/page.js:135 | an amount cell is the currency symbol, then one space, then the amount |
| Reports.MoneyTextReadsBack | src/app/reports/page.js:135 | what follows the symbol and the space reads back as the amount |
| Reports.PdfRow | src/app/reports/page.js:130-136 | every PDF body row has as many cells as the five-column header |
| Reports.PdfTableRows | src/app/reports/page.js:126-138 | the table has one row per transaction, in order, each made of the date, type, source, note and amount cells |
| Reports.PdfMatchesSheet | src/app/reports/page.js:126-136 | each PDF cell carries the spreadsheet field with the same column name, and the PDF amount is the spreadsheet amount behind the currency |
| Reports.DashboardAgreesWithReport | src/app/reports/page.js:76-77 | over the same rows, the report's income, expense and net agree with the dashboard's totals |
| Export.SheetRows | src/app/reports/page.js:88-96 | one spreadsheet row per transaction, in the same order, with Date, Type, Category, Amount and Note taken from date, type name, source name, amount and note; the transactions page (src/app/transactions/page.js:113-121) exports through the same mapping |
| Export.SheetRowsAppend | src/app/reports/page.js:89 | exporting a concatenation of lists exports each part in turn |
| Admin.UsageCounts | src/app/admin/page.js:180-184 | an id is a key of the count map exactly when some transaction references it, and its count is its references as category 1 plus those as category 2; a failed query gives an empty map |
| Admin.CountsSumToTwiceRows | src/app/admin/page.js:180-184 | the counts of all used ids add up to twice the number of transactions |
| Admin.HandleDelete | src/app/admin/page.js:215-242 | system categories are refused first, then used ones with their count; a delete reaches storage only when the category is non-system, unused and the user confirms; the result sets the toast, and only a success refetches |
| Admin.ButtonAgreesWithGuard | src/app/admin/page.js:90 | a confirmed click reaches storage exactly when the delete button is enabled (not system, count not above 0) |
| Admin.UsedCategoryKept | src/app/admin/page.js:224-231 | with counts from the usage query, a referenced category is never deleted and its button is disabled |
| Admin.HandleAddClick | src/app/admin/page.js:37-41 | a blank input is not submitted and stays; otherwise the raw input is submitted and the field is cleared |
| Admin.HandleAdd | src/app/admin/page.js:188-213 | the inserted name is the trimmed input; a success shows "Category added successfully" and refetches; code 23505 shows "This category already exists!", any other error its own message |
| Admin.AddStoresTrimmed | src/app/admin/page.js:37-40 | only non-blank input is ever inserted, under a name that is non-empty and already trimmed |
| Admin.FilteredCategories | src/app/admin/page.js:43 | a manager lists exactly the categories of its own type |
| Admin.FilterKeepsOrder | src/app/admin/page.js:43 | filtering a concatenation filters each part in turn, so the kept categories stay in their list order |
| Admin.FilterOne | src/app/admin/page.js:43 | a single category is kept exactly when it is of the manager's type |
| Admin.AddDisabled | src/app/admin/page.js:68 | the Add button is disabled exactly when the input is all whitespace |
| Admin.UsageLabelShowsUsage | src/app/admin/page.js:128 | with counts from the usage query, the usage label reads back as the category's number of references |
| Admin.ManagersPartition | src/app/admin/page.js:250-270 | when every category is of type c1 or c2, the two managers list every category once between them |
| Admin.SystemNotPersonal | src/app/admin/page.js:78-80 | no category is marked both System and Personal |
| Admin.AdminState.FetchData | src/app/admin/page.js:168-186 | the category list is replaced only when its query succeeds, and the counts are always rebuilt from the usage query |
| Transactions.EntryPage.HandleSubmit | src/app/transactions/page.js:83-104 | with amount, type or source empty, nothing is inserted and the form is unchanged; an insert error leaves the form unchanged; a success clears amount and note and keeps date, type and source |
| Transactions.SubmitTwice | src/app/transactions/page.js:85-100 | after a successful save, submitting again at once inserts nothing |
| Transactions.TypeStyles | src/app/transactions/page.js:128-144 | Income, Expense and Loan each get their own style exactly when named so; any other name, or none, gets the default |
| Transactions.AmountPrefix | src/app/transactions/page.js:338 | the sign is "-" exactly for Expense and "+" otherwise |
| Transactions.AmountText | src/app/transactions/page.js:338-339 | a card amount is the sign, then the currency, then one space, then the amount |
| Transactions.CardOf | src/app/transactions/page.js:319-339 | a card's title is `CardTitle` of the source name and its subtitle `CardSubtitle` of the note and type name; its amount starts with "-" exactly for an Expense row and exactly when the card is in the error colour |
| Transactions.SignMatchesStyle | src/app/transactions/page.js:336-338 | the minus sign appears exactly on cards in the error colour; a Settlement is shown with "+" in the default colour |
| Transactions.CardTitle | src/app/transactions/page.js:319 | the title is the source name, or "Uncategorized" when it is missing or empty |
| Transactions.CardSubtitle | src/app/transactions/page.js:322 | the subtitle is the note, or the type name when the note is missing or empty |
| Transactions.CardAmountReadsBack | src/app/transactions/page.js:338-339 | after the sign, the currency and the space, a card's amount reads back as the row's amount |
| Profile.PasswordProblem | src/app/profile/page.js:90-96 | a password is accepted exactly when it has at least 6 characters and equals its confirmation; the length error takes precedence |
| Profile.LengthReportedFirst | src/app/profile/page.js:90-96 | a short pair that also differs reports the length error |
| Profile.PasswordForm.HandlePasswordUpdate | src/app/profile/page.js:87-109 | a failed check sends nothing and keeps both fields; an update error keeps them; a success resets both to empty |
| Profile.HandleSaveSettings | src/app/profile/page.js:57-84 | no user does nothing; a blank currency is refused before any write; the record has the trimmed, non-empty currency, the parsed balance (0 when unreadable) and the save instant; only a success pushes the currency globally |
| Profile.StoredBalance | src/app/profile/page.js:70 | a readable balance is stored as read; blank or unreadable input is stored as 0 |
| Profile.CurrencySavedTrimmed | src/app/profile/page.js:69 | saving the stored currency again stores the same symbol |
| Profile.PrefillBalance | src/app/profile/page.js:46-50 | a stored non-zero balance fills the field with its rendering; a missing or zero one leaves it empty |
| Profile.ResaveKeepsBalance | src/app/profile/page.js:46-50 | saving without editing the prefilled balance stores the loaded balance |
| Profile.SavedBalanceIsLiveBalance | src/app/profile/page.js:70-71 | when every existing row was created at or before the instant the save records, the dashboard's bank balance right after the save is the entered balance |
| Text.Trim | src/app/admin/page.js:38 | the result is the input with an all-whitespace prefix and suffix removed; it is empty exactly when the input is all whitespace, and otherwise neither starts nor ends with whitespace |
| Text.TrimIdempotent | src/app/profile/page.js:69 | trimming twice is trimming once |
| Text.ParseNumber | src/app/profile/page.js:70 | a number is read exactly when the input, after leading whitespace, starts with a digit or with a sign and a digit; a negative result comes only after a minus sign |
| Text.ParseShow | src/app/profile/page.js:70 | parsing a rendered whole number gives it back |
| Text.ParseDigits | src/app/profile/page.js:70 | after any whitespace, a run of digits ended by a non-digit or the end reads as the digits' decimal value |
| Text.ParseSkipsSpace | src/app/profile/page.js:70 | leading whitespace never changes what is read |
| Text.ParseLeadingZero | src/app/profile/page.js:70 | a zero before a digit never changes what is read |
| Text.ParsePlus | src/app/profile/page.js:70 | a '+' before a digit never changes what is read |
| Text.ParseMinus | src/app/profile/page.js:70 | text whose leading digits are worth v reads as v, and after a '-' as -v |
| Middleware.Decide | src/app/middleware.js:16-25 | no session off the login page redirects to /login; a session on the login page redirects to /; everything else passes |
| Middleware.RedirectSettles | src/app/middleware.js:16-25 | with the session unchanged, a redirect's target passes, so the guard never redirects twice |
| Middleware.RedirectMatchesSession | src/app/middleware.js:16-23 | a redirect goes to /login exactly when there is no session |
| Middleware.Route | src/app/middleware.js:28-30 | paths outside the matcher always pass, and matched paths get the guard's decision |
| Middleware.UnguardedPages | src/app/middleware.js:29 | when the guard is installed, /reports and /profile pass without a session, while / redirects to /login |

## Left out

- Storage, auth, React effects and rendering are not modelled. Supabase queries, inserts, upserts, deletes and auth calls appear only as their outcomes, passed in. The order of overlapping refetches is not modelled.
- Amounts are integers. Floating-point sums, `parseFloat` fractions, exponents and `Infinity`, and `toLocaleString` are not modelled. `Text.ParseNumber` reads the optional sign and the leading digits only, so "1e3" reads as 1 where `parseFloat` gives 1000.
- Dates are not modelled as dates. `date-fns` formatting, `subMonths`, `toISOString` and time zones are replaced by integer month indices and instants. The month labels ("MMM yyyy") are not modelled.
- Dashboard.CategoryList: the breakdown keeps key-creation order. JavaScript lists integer-like object keys (a source named "42", say) in numeric order first, and that ordering is not modelled. Nor are names that collide with inherited object properties, such as "constructor", "toString" or "__proto__", where `acc[k] || 0` starts from the inherited value (src/app/page.js:312).
- A dashboard row whose type category is missing makes the page's `t.categories.name` throw. That case is not modelled: every `LedgerRow` carries a type name.
- The older `Dashboard` component in src/app/page.js (lines 54-221) is not modelled. It is the page's default export and does run its own `fetchData` on mount (lines 72-74), but it renders only `<DashboardWithLogic />` (line 220), so its state, including its pre-seeded category map and `calculateBankBalance`, is never shown. The breakdown follows the live `loadData`, which seeds no categories.
- Confirmation dialogs and alerts are not modelled as dialogs. A confirmation is a boolean parameter, and an alert is the returned or stored message.
- The transactions page's `handleDelete` (src/app/transactions/page.js:106-110) is not modelled. It only confirms, deletes and refetches, with no rule of its own.
- XLSX and jsPDF file encoding, file names, fonts and layout are not modelled. Only the rows and cells are. The PDF's fixed title and its "Period:" line (src/app/reports/page.js:110-114) are not modelled.
- Profile.SavedBalanceIsLiveBalance: it assumes that the browser clock, which stamps `balance_updated_at` (src/app/profile/page.js:71), and the storage clock, which stamps `created_at` (the insert at src/app/transactions/page.js:89-95 sends none), agree. If the browser clock runs behind, the save is stamped too early, and rows created between that stamp and the real save, already inside the balance entered, count a second time. If it runs ahead, rows created just after the real save but before the stamp are dropped.
- Middleware.UnguardedPages: it assumes the guard is installed. Next.js loads middleware only from the project root or src/, and this file sits in src/app/, so as laid out the guard may never run at all.
- Profile.PasswordProblem: password length counts characters. JavaScript counts UTF-16 code units, which differs for characters outside the Basic Multilingual Plane.
- The transaction form's `loading` flag is not modelled: it only disables the Save button while an insert is in flight (src/app/transactions/page.js:254-257).
- The transactions page's `fetching` flag is not modelled: it only replaces the list with a spinner while the list loads (src/app/transactions/page.js:273).
- The dashboard query's `.order("date", { ascending: true })` (src/app/page.js:274) is not modelled: `Dashboard.QueryWindow` keeps the stored order. The totals, the month series and the balance change do not depend on row order; the breakdown's category order follows whichever order the rows arrive in.
- src/app/layout.js, src/app/login/page.js and src/lib/CurrencyContext.js are not part of this model. They hold navigation, the auth widget and a context with one string.
- Spreadsheet import and serial-date conversion are not modelled: no code for them exists in the modelled pages.

## Findings

| source | as written | input that shows it | evidently intended | confidence | as-written member | corrected member |
|---|---|---|---|---|---|---|
| src/app/page.js:273 | the balance change (lines 316-326) is summed over the query's rows, which start at the oldest chart month | an Income of 100 dated twelve months back and created after the snapshot changes nothing on the bank card | every row created after the snapshot moves the bank balance, as the comment at lines 317-318 says | medium, not executed | Dashboard.BackdatedEntryMissed | Dashboard.LaterEntryCounts |
