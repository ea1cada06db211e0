/** The records the pages fetch from storage, reduced to the columns each query
    selects. Amounts are whole numbers, calendar months are the index
    `year * 12 + month`, and timestamps are integers ordered like the instants
    they denote. */
module Ledger {

  import opened Options

  /** The outcome of a storage query: its rows, or the error it reported. */
  datatype Fetch<T> = Fetched(data: T) | FetchError(message: string)

  /** The type-category names the application gives a meaning to. */
  const IncomeName := "Income"
  const ExpenseName := "Expense"
  const LoanName := "Loan"
  const SettlementName := "Settlement"

  /** A row of the dashboard query: the amount, the month of its `date`, its
      `created_at` instant, the name of its type category (`categories.name`)
      and the name of its source category (`category2?.name`). */
  datatype LedgerRow = LedgerRow(
    amount: int,
    month: int,
    createdAt: int,
    typeName: string,
    category2: Option<string>)

  /** A row of the report and transaction-list queries: `date`, `amount`,
      `note` and the two joined category names, each of which may be missing. */
  datatype DetailRow = DetailRow(
    date: string,
    amount: int,
    note: Option<string>,
    category1: Option<string>,
    category2: Option<string>)

  /** The severity of an alert, toast or message the pages show. */
  datatype Severity = Success | Warning | Error

  /** A message shown to the user (the pages' `toast` and `msg` states). */
  datatype Notice = Notice(severity: Severity, text: string)
}
