/** The reports page (src/app/reports/page.js): period totals over the rows of
    the chosen date range, the summary chips, and the PDF export's summary and
    table. */
module Reports {

  import opened Options
  import opened Ledger
  import opened Text
  import Export
  import Dashboard

  /** Sum of the amounts of the rows whose type-category name is `name`; a
      row with no type category counts for no name. */
  function NamedSum(ts: seq<DetailRow>, name: string): int {
    if ts == [] then 0
    else
      var t := ts[|ts| - 1];
      NamedSum(ts[..|ts| - 1], name) + (if t.category1 == Some(name) then t.amount else 0)
  }

  /** The totals loop of `fetchReport`. */
  method PeriodTotals(data: seq<DetailRow>) returns (inc: int, exp: int)
    ensures inc == NamedSum(data, IncomeName)
    ensures exp == NamedSum(data, ExpenseName)
  {
    inc, exp := 0, 0;
    for j := 0 to |data|
      invariant inc == NamedSum(data[..j], IncomeName)
      invariant exp == NamedSum(data[..j], ExpenseName)
    {
      var t := data[j];
      assert data[..j + 1][..j] == data[..j];
      if t.category1 == Some(IncomeName) { inc := inc + t.amount; }
      if t.category1 == Some(ExpenseName) { exp := exp + t.amount; }
    }
    assert data[..|data|] == data;
  }

  /** The net the page shows: income less expense. */
  function Net(income: int, expense: int): int {
    income - expense
  }

  /** An amount as the page prints it, `${currency} ${amount}`: the currency
      symbol, one space, then the amount. */
  function MoneyText(currency: string, amount: int): (text: string)
    ensures |text| > |currency| + 1
    ensures text[..|currency|] == currency && text[|currency|] == ' '
  {
    currency + " " + Show(amount)
  }

  /** What follows the currency symbol and the space reads back as the amount. */
  lemma MoneyTextReadsBack(currency: string, amount: int)
    ensures ParseNumber(MoneyText(currency, amount)[|currency| + 1..]) == Some(amount)
  {
    assert MoneyText(currency, amount)[|currency| + 1..] == Show(amount);
    ParseShow(amount);
  }

  /** The three chips: income, expense and net, each a label followed by
      the amount as `MoneyText` prints it. */
  function ChipLabels(currency: string, income: int, expense: int): (labels: seq<string>)
    ensures |labels| == 3
    ensures "Income: " <= labels[0] && "Expense: " <= labels[1] && "Net: " <= labels[2]
  {
    ["Income: " + MoneyText(currency, income),
     "Expense: " + MoneyText(currency, expense),
     "Net: " + MoneyText(currency, Net(income, expense))]
  }

  /** The PDF's three summary lines, in the same form as the chips. */
  function PdfSummary(currency: string, income: int, expense: int): (lines: seq<string>)
    ensures |lines| == 3
    ensures "Total Income: " <= lines[0] && "Total Expense: " <= lines[1] && "Net Balance: " <= lines[2]
  {
    ["Total Income: " + MoneyText(currency, income),
     "Total Expense: " + MoneyText(currency, expense),
     "Net Balance: " + MoneyText(currency, Net(income, expense))]
  }

  /** Every chip and every summary line reads back, after its label, the
      currency and the space, as the figure it reports: income, expense, and
      income minus expense. */
  lemma SummaryReadsBack(currency: string, income: int, expense: int)
    ensures var chips := ChipLabels(currency, income, expense);
      && ParseNumber(chips[0][8 + |currency| + 1..]) == Some(income)
      && ParseNumber(chips[1][9 + |currency| + 1..]) == Some(expense)
      && ParseNumber(chips[2][5 + |currency| + 1..]) == Some(income - expense)
    ensures var lines := PdfSummary(currency, income, expense);
      && ParseNumber(lines[0][14 + |currency| + 1..]) == Some(income)
      && ParseNumber(lines[1][15 + |currency| + 1..]) == Some(expense)
      && ParseNumber(lines[2][13 + |currency| + 1..]) == Some(income - expense)
  {
    LabelReadsBack("Income: ", currency, income);
    LabelReadsBack("Expense: ", currency, expense);
    LabelReadsBack("Net: ", currency, Net(income, expense));
    LabelReadsBack("Total Income: ", currency, income);
    LabelReadsBack("Total Expense: ", currency, expense);
    LabelReadsBack("Net Balance: ", currency, Net(income, expense));
  }

  /** A label followed by an amount reads back, after the label, the
      currency and the space, as that amount. */
  lemma LabelReadsBack(prefix: string, currency: string, n: int)
    ensures ParseNumber((prefix + MoneyText(currency, n))[|prefix| + |currency| + 1..]) == Some(n)
  {
    MoneyTextReadsBack(currency, n);
    assert (prefix + MoneyText(currency, n))[|prefix| + |currency| + 1..] == MoneyText(currency, n)[|currency| + 1..];
  }

  /** The PDF table's fixed header. */
  const PdfHeader: seq<string> := ["Date", "Type", "Category", "Note", "Amount"]

  /** One PDF body row, in header order; a missing name or note is an empty cell. */
  function PdfRow(t: DetailRow, currency: string): (row: seq<Option<string>>)
    ensures |row| == |PdfHeader|
  {
    [Some(t.date), t.category1, t.category2, t.note, Some(MoneyText(currency, t.amount))]
  }

  /** The `exportPDF` loop that pushes one row per transaction. */
  method PdfTableRows(transactions: seq<DetailRow>, currency: string) returns (tableRows: seq<seq<Option<string>>>)
    ensures |tableRows| == |transactions|
    ensures forall i :: 0 <= i < |transactions| ==>
      |tableRows[i]| == |PdfHeader| && tableRows[i] == PdfRow(transactions[i], currency)
  {
    tableRows := [];
    for j := 0 to |transactions|
      invariant |tableRows| == j
      invariant forall i :: 0 <= i < j ==> tableRows[i] == PdfRow(transactions[i], currency)
    {
      var t := transactions[j];
      var transactionData := PdfRow(t, currency);
      tableRows := tableRows + [transactionData];
    }
  }

  /** The state the reports page keeps: the fetched rows and their totals. */
  class ReportState {
    var transactions: seq<DetailRow>
    var income: int
    var expense: int

    constructor ()
      ensures transactions == [] && income == 0 && expense == 0
    {
      transactions := [];
      income := 0;
      expense := 0;
    }

    /** `fetchReport`: a failed query only alerts; a successful one stores the
        rows and their period totals. */
    method FetchReport(fetched: Fetch<seq<DetailRow>>) returns (alert: Option<string>)
      modifies this
      ensures fetched.FetchError? ==>
        alert == Some("Error fetching report") && transactions == old(transactions)
        && income == old(income) && expense == old(expense)
      ensures fetched.Fetched? ==>
        alert == None && transactions == fetched.data
        && income == NamedSum(fetched.data, IncomeName) && expense == NamedSum(fetched.data, ExpenseName)
    {
      if fetched.FetchError? {
        alert := Some("Error fetching report");
      } else {
        alert := None;
        transactions := fetched.data;
        income, expense := PeriodTotals(fetched.data);
      }
    }
  }

  // ---------------------------------------------------------------------
  // Properties
  // ---------------------------------------------------------------------

  /** A row whose type name is neither "Income" nor "Expense", or that has no
      type category, changes neither period total. */
  lemma OtherTypesIgnored(ts: seq<DetailRow>, t: DetailRow)
    requires t.category1 != Some(IncomeName) && t.category1 != Some(ExpenseName)
    ensures NamedSum(ts + [t], IncomeName) == NamedSum(ts, IncomeName)
    ensures NamedSum(ts + [t], ExpenseName) == NamedSum(ts, ExpenseName)
  {
    var us := ts + [t];
    assert us[..|us| - 1] == ts;
  }

  /** The chip and the PDF summary both show the net as income minus expense. */
  lemma NetShownAlike(currency: string, income: int, expense: int)
    ensures ChipLabels(currency, income, expense)[2] == "Net: " + MoneyText(currency, income - expense)
    ensures PdfSummary(currency, income, expense)[2] == "Net Balance: " + MoneyText(currency, income - expense)
  {
  }

  /** The PDF table and the spreadsheet carry the same data: each PDF cell is
      the spreadsheet field of the same column name, the amount prefixed by
      the currency and a space. */
  lemma PdfMatchesSheet(ts: seq<DetailRow>, currency: string, i: int)
    requires 0 <= i < |ts|
    ensures var row := PdfRow(ts[i], currency);
            var sheet := Export.SheetRows(ts)[i];
            && PdfHeader[0] == Export.SheetHeader[0] && row[0] == Some(sheet.date)
            && PdfHeader[1] == Export.SheetHeader[1] && row[1] == sheet.typeName
            && PdfHeader[2] == Export.SheetHeader[2] && row[2] == sheet.category
            && PdfHeader[3] == Export.SheetHeader[4] && row[3] == sheet.note
            && PdfHeader[4] == Export.SheetHeader[3] && row[4] == Some(MoneyText(currency, sheet.amount))
  {
    var sheet := Export.SheetRows(ts)[i];
    assert sheet.date == ts[i].date && sheet.typeName == ts[i].category1 && sheet.category == ts[i].category2;
    assert sheet.note == ts[i].note && sheet.amount == ts[i].amount;
    HeadersAgree();
  }

  /** The PDF and the spreadsheet name their columns alike; only Note and
      Amount swap places. */
  lemma HeadersAgree()
    ensures PdfHeader[0] == Export.SheetHeader[0] && PdfHeader[1] == Export.SheetHeader[1]
    ensures PdfHeader[2] == Export.SheetHeader[2]
    ensures PdfHeader[3] == Export.SheetHeader[4] && PdfHeader[4] == Export.SheetHeader[3]
  {
  }

  /** The dashboard's income and expense totals and the report's agree over
      the same rows: the two pages use the same exact-name rule, so the
      dashboard's income less expense is the report's net. */
  lemma {:induction false} DashboardAgreesWithReport(ls: seq<LedgerRow>, rs: seq<DetailRow>)
    requires |ls| == |rs|
    requires forall i :: 0 <= i < |ls| ==> rs[i].category1 == Some(ls[i].typeName) && rs[i].amount == ls[i].amount
    ensures NamedSum(rs, IncomeName) == Dashboard.SumOfType(ls, IncomeName)
    ensures NamedSum(rs, ExpenseName) == Dashboard.SumOfType(ls, ExpenseName)
    ensures Net(NamedSum(rs, IncomeName), NamedSum(rs, ExpenseName)) ==
            Dashboard.SumOfType(ls, IncomeName) - Dashboard.SumOfType(ls, ExpenseName)
  {
    if ls != [] {
      DashboardAgreesWithReport(ls[..|ls| - 1], rs[..|rs| - 1]);
    }
  }
}
