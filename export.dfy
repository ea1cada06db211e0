/** The spreadsheet export both the reports page and the transactions page
    build with `XLSX.utils.json_to_sheet`: one object per fetched row with the
    keys Date, Type, Category, Amount and Note. */
module Export {

  import opened Options
  import opened Ledger

  /** The sheet's header: `json_to_sheet` takes the keys in the order the
      row objects were written with. */
  const SheetHeader: seq<string> := ["Date", "Type", "Category", "Amount", "Note"]

  /** One spreadsheet row, one field per header column. */
  datatype SheetRow = SheetRow(
    date: string,
    typeName: Option<string>,
    category: Option<string>,
    amount: int,
    note: Option<string>)

  /** `transactions.map(t => ({Date: t.date, Type: t.category1?.name,
      Category: t.category2?.name, Amount: t.amount, Note: t.note}))`: one row
      per transaction, in the same order, each field taken from its column. */
  function SheetRows(ts: seq<DetailRow>): (rows: seq<SheetRow>)
    ensures |rows| == |ts|
    ensures forall i :: 0 <= i < |ts| ==>
      && rows[i].date == ts[i].date
      && rows[i].typeName == ts[i].category1
      && rows[i].category == ts[i].category2
      && rows[i].amount == ts[i].amount
      && rows[i].note == ts[i].note
  {
    if ts == [] then []
    else
      var t := ts[|ts| - 1];
      SheetRows(ts[..|ts| - 1]) + [SheetRow(t.date, t.category1, t.category2, t.amount, t.note)]
  }

  /** Exporting a concatenation exports each part in turn. */
  lemma {:induction false} SheetRowsAppend(a: seq<DetailRow>, b: seq<DetailRow>)
    ensures SheetRows(a + b) == SheetRows(a) + SheetRows(b)
    decreases |b|
  {
    if b == [] {
      assert a + b == a;
    } else {
      var front := b[..|b| - 1];
      assert (a + b)[..|a + b| - 1] == a + front;
      SheetRowsAppend(a, front);
    }
  }
}
