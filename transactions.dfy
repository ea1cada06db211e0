/** The transactions page (src/app/transactions/page.js): the entry form's
    validation and what a save leaves in it, and how a listed transaction is
    styled and labelled. Its spreadsheet export is `Export.SheetRows`. */
module Transactions {

  import opened Options
  import opened Ledger
  import opened Text

  /** The entry form: every field is the text of its input; `c1` and `c2`
      hold the chosen category ids, "" while none is chosen. */
  datatype Form = Form(date: string, amount: string, note: string, c1: string, c2: string)

  /** The record a save inserts. */
  datatype NewTransaction = NewTransaction(date: string, amount: string, note: string,
                                           category1Id: string, category2Id: string)

  /** `!form.amount || !form.c1 || !form.c2`: an empty string is falsy. */
  predicate MissingRequired(f: Form) {
    f.amount == "" || f.c1 == "" || f.c2 == ""
  }

  const RequiredFieldsMessage := "Please fill all required fields"

  /** The page's form and the alert it last raised. */
  class EntryPage {
    var form: Form
    var alert: Option<string>

    constructor (today: string)
      ensures form == Form(today, "", "", "", "") && alert == None
    {
      form := Form(today, "", "", "", "");
      alert := None;
    }

    /** `handleSubmit`: with a required field empty nothing is inserted;
        otherwise the form is inserted as it stands, and `insertError` is
        what storage answers. A successful save clears amount and note and
        keeps date and both categories for the next entry; a failed one
        leaves the form as it was. */
    method HandleSubmit(insertError: Option<string>) returns (inserted: Option<NewTransaction>, refetch: bool)
      modifies this
      ensures MissingRequired(old(form)) ==>
        inserted == None && !refetch && form == old(form) && alert == Some(RequiredFieldsMessage)
      ensures !MissingRequired(old(form)) ==>
        inserted == Some(NewTransaction(old(form).date, old(form).amount, old(form).note, old(form).c1, old(form).c2))
      ensures !MissingRequired(old(form)) && insertError.Some? ==>
        !refetch && form == old(form) && alert == insertError
      ensures !MissingRequired(old(form)) && insertError.None? ==>
        refetch && alert == old(alert)
        && form == old(form).(amount := "", note := "")
      ensures inserted.Some? && insertError.None? ==> MissingRequired(form)
    {
      if MissingRequired(form) {
        alert := Some(RequiredFieldsMessage);
        inserted, refetch := None, false;
        return;
      }
      inserted := Some(NewTransaction(form.date, form.amount, form.note, form.c1, form.c2));
      match insertError {
        case Some(m) =>
          alert := Some(m);
          refetch := false;
        case None =>
          form := form.(amount := "", note := "");
          refetch := true;
      }
    }
  }

  /** A successful save cannot be repeated by submitting again at once: the
      amount it clears is required, so the next submit inserts nothing. */
  method SubmitTwice(page: EntryPage) returns (first: Option<NewTransaction>, second: Option<NewTransaction>)
    modifies page
    ensures first.Some? ==> second == None
  {
    var r;
    first, r := page.HandleSubmit(None);
    second, r := page.HandleSubmit(None);
  }

  // ---------------------------------------------------------------------
  // Listing
  // ---------------------------------------------------------------------

  datatype Icon = TrendingUp | TrendingDown | Money

  /** A card's colour, icon and icon background. */
  datatype TypeStyle = TypeStyle(color: string, icon: Icon, bg: string)

  const IncomeStyle := TypeStyle("success.main", TrendingUp, "#e8f5e9")
  const ExpenseStyle := TypeStyle("error.main", TrendingDown, "#ffebee")
  const LoanStyle := TypeStyle("warning.main", Money, "#fff3e0")
  const DefaultStyle := TypeStyle("text.secondary", Money, "#f5f5f5")

  /** `getTypeStyles(t.category1?.name)`: the exact names "Income",
      "Expense" and "Loan" get their own style; anything else, a missing
      name included, gets the default. */
  function TypeStyles(typeName: Option<string>): (s: TypeStyle)
    ensures typeName == Some(IncomeName) <==> s == IncomeStyle
    ensures typeName == Some(ExpenseName) <==> s == ExpenseStyle
    ensures typeName == Some(LoanName) <==> s == LoanStyle
    ensures s == DefaultStyle <==>
      typeName !in {Some(IncomeName), Some(ExpenseName), Some(LoanName)}
  {
    if typeName == Some(IncomeName) then IncomeStyle
    else if typeName == Some(ExpenseName) then ExpenseStyle
    else if typeName == Some(LoanName) then LoanStyle
    else DefaultStyle
  }

  /** The sign before a listed amount: "-" for an expense, "+" otherwise. */
  function AmountPrefix(typeName: Option<string>): (p: string)
    ensures p == "-" <==> typeName == Some(ExpenseName)
    ensures p == "-" || p == "+"
  {
    if typeName == Some(ExpenseName) then "-" else "+"
  }

  /** The amount as a card shows it: sign, currency, a space, the amount. */
  function AmountText(typeName: Option<string>, currency: string, amount: int): (text: string)
    ensures |text| > |currency| + 2
    ensures text[0] == AmountPrefix(typeName)[0]
    ensures text[1..|currency| + 1] == currency && text[|currency| + 1] == ' '
  {
    var sign := AmountPrefix(typeName);
    var text := sign + currency + " " + Show(amount);
    assert |sign| == 1;
    assert text == sign + (currency + ([' '] + Show(amount)));
    assert text[1..|currency| + 1] == currency;
    text
  }

  /** The sign and the colour agree: the minus sign is shown exactly on the
      cards drawn in the error colour, and a settlement, though it lowers
      the bank balance, is shown with a plus in the default colour. */
  lemma SignMatchesStyle(typeName: Option<string>)
    ensures AmountPrefix(typeName) == "-" <==> TypeStyles(typeName).color == "error.main"
    ensures typeName == Some(SettlementName) ==>
      AmountPrefix(typeName) == "+" && TypeStyles(typeName) == DefaultStyle
  {
  }

  /** A JavaScript string value is falsy exactly when it is missing or empty. */
  predicate Truthy(s: Option<string>) {
    s.Some? && s.value != ""
  }

  /** `t.category2?.name || "Uncategorized"`. */
  function CardTitle(category2: Option<string>): (title: string)
    ensures title != ""
    ensures Truthy(category2) ==> title == category2.value
    ensures !Truthy(category2) ==> title == "Uncategorized"
  {
    if Truthy(category2) then category2.value else "Uncategorized"
  }

  /** `t.note || t.category1?.name`: the note, or the type name when the
      note is missing or empty. */
  function CardSubtitle(note: Option<string>, category1: Option<string>): (subtitle: Option<string>)
    ensures Truthy(note) ==> subtitle == note
    ensures !Truthy(note) ==> subtitle == category1
  {
    if Truthy(note) then note else category1
  }

  /** One card's texts and style. */
  datatype Card = Card(title: string, subtitle: Option<string>, amount: string, style: TypeStyle)

  /** One listed row's card: the amount starts with a minus sign exactly
      when the row is an Expense, and exactly those cards are drawn in the
      error colour; the title is the source name or "Uncategorized", and the
      subtitle the note or the type name. */
  function CardOf(t: DetailRow, currency: string): (c: Card)
    ensures c.style == TypeStyles(t.category1)
    ensures c.amount == AmountText(t.category1, currency, t.amount)
    ensures c.amount[0] == '-' <==> t.category1 == Some(ExpenseName)
    ensures c.amount[0] == '-' <==> c.style.color == "error.main"
    ensures c.title == CardTitle(t.category2) && c.title != ""
    ensures c.subtitle == CardSubtitle(t.note, t.category1)
  {
    Card(CardTitle(t.category2), CardSubtitle(t.note, t.category1), AmountText(t.category1, currency, t.amount),
         TypeStyles(t.category1))
  }

  /** A card's amount reads back, after the sign, the currency and the space,
      as the row's amount. */
  lemma CardAmountReadsBack(t: DetailRow, currency: string)
    ensures ParseNumber(CardOf(t, currency).amount[|currency| + 2..]) == Some(t.amount)
  {
    assert CardOf(t, currency).amount[|currency| + 2..] == Show(t.amount);
    ParseShow(t.amount);
  }
}
