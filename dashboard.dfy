/** The dashboard's ledger processing (`DashboardWithLogic.loadData` in
    src/app/page.js): one pass over the fetched rows that accumulates the four
    type totals, a 12-month Income/Expense series, the expense breakdown by
    source category and the change in bank balance since the profile
    snapshot; and the live balance shown on the bank card. */
module Dashboard {

  import opened Options
  import opened Ledger
  import Tally

  datatype Stats = Stats(income: int, expense: int, loan: int, settlement: int)

  /** One bar group of the monthly chart: the month and its two sums. */
  datatype MonthPoint = MonthPoint(month: int, income: int, expense: int)

  /** One slice of the expense chart: a source-category name and its sum. */
  datatype CategoryPoint = CategoryPoint(name: string, value: int)

  /** Everything one processing pass produces. */
  datatype LedgerView = LedgerView(
    stats: Stats,
    months: seq<MonthPoint>,
    breakdown: seq<CategoryPoint>,
    balanceChange: int)

  /** The profile row the dashboard reads: `initial_balance` and
      `balance_updated_at`, either of which may be null. */
  datatype ProfileRow = ProfileRow(initialBalance: Option<int>, balanceUpdatedAt: Option<int>)

  // ---------------------------------------------------------------------
  // Specification of one pass
  // ---------------------------------------------------------------------

  /** Sum of the amounts of the rows whose type name is exactly `name`. */
  function SumOfType(ts: seq<LedgerRow>, name: string): int {
    if ts == [] then 0
    else
      var t := ts[|ts| - 1];
      SumOfType(ts[..|ts| - 1], name) + (if t.typeName == name then t.amount else 0)
  }

  /** Sum of the amounts of the rows of month `m` whose type name is `name`. */
  function MonthSum(ts: seq<LedgerRow>, m: int, name: string): int {
    if ts == [] then 0
    else
      var t := ts[|ts| - 1];
      MonthSum(ts[..|ts| - 1], m, name) + (if t.month == m && t.typeName == name then t.amount else 0)
  }

  /** The i-th month of the chart, oldest first: the current month when i is 11. */
  function WindowMonth(currentMonth: int, i: int): int {
    currentMonth - 11 + i
  }

  /** The twelve months seeded into the chart: the current one and the eleven before. */
  predicate InWindow(currentMonth: int, m: int) {
    currentMonth - 11 <= m <= currentMonth
  }

  /** The row counts in the expense breakdown: an "Expense" with a non-empty
      source-category name (`if (c2)` skips a missing or empty name). */
  predicate IsCategorisedExpense(t: LedgerRow) {
    t.typeName == ExpenseName && t.category2.Some? && t.category2.value != ""
  }

  /** The (category, amount) pairs the breakdown accumulator is fed, in row order. */
  function ExpensePairs(ts: seq<LedgerRow>): seq<(string, int)> {
    if ts == [] then []
    else
      var t := ts[|ts| - 1];
      ExpensePairs(ts[..|ts| - 1]) + (if IsCategorisedExpense(t) then [(t.category2.value, t.amount)] else [])
  }

  /** How one row moves the bank balance: in for "Income", out for "Expense"
      and "Settlement", not at all for any other name. */
  function SignedAmount(t: LedgerRow): int {
    if t.typeName == IncomeName then t.amount
    else if t.typeName == ExpenseName || t.typeName == SettlementName then -t.amount
    else 0
  }

  /** Balance movement of the rows created strictly after instant `s`. */
  function ChangeAfter(ts: seq<LedgerRow>, s: int): int {
    if ts == [] then 0
    else
      var t := ts[|ts| - 1];
      ChangeAfter(ts[..|ts| - 1], s) + (if t.createdAt > s then SignedAmount(t) else 0)
  }

  /** The balance change since the snapshot; none when no snapshot was taken. */
  function BalanceChange(ts: seq<LedgerRow>, snapshot: Option<int>): int {
    match snapshot
    case None => 0
    case Some(s) => ChangeAfter(ts, s)
  }

  /** The month series, oldest month first. */
  function MonthSeries(ts: seq<LedgerRow>, currentMonth: int): seq<MonthPoint> {
    seq(12, i requires 0 <= i < 12 =>
      var m := WindowMonth(currentMonth, i);
      MonthPoint(m, MonthSum(ts, m, IncomeName), MonthSum(ts, m, ExpenseName)))
  }

  /** The expense breakdown, categories in order of first appearance. */
  function Breakdown(ts: seq<LedgerRow>): seq<CategoryPoint> {
    var ps := ExpensePairs(ts);
    var ks := Tally.Keys(ps);
    seq(|ks|, k requires 0 <= k < |ks| => CategoryPoint(ks[k], Tally.Weight(ps, ks[k])))
  }

  /** What one processing pass over `ts` yields. */
  function View(ts: seq<LedgerRow>, currentMonth: int, snapshot: Option<int>): LedgerView {
    LedgerView(
      Stats(SumOfType(ts, IncomeName), SumOfType(ts, ExpenseName),
            SumOfType(ts, LoanName), SumOfType(ts, SettlementName)),
      MonthSeries(ts, currentMonth),
      Breakdown(ts),
      BalanceChange(ts, snapshot))
  }

  /** The bank card: the snapshot balance plus the change since the snapshot. */
  function LiveBalance(initialBalance: int, ts: seq<LedgerRow>, snapshot: Option<int>): int {
    initialBalance + BalanceChange(ts, snapshot)
  }

  /** The rows created strictly after instant `s`, in order. */
  function After(ts: seq<LedgerRow>, s: int): (r: seq<LedgerRow>)
    ensures |r| <= |ts|
    ensures forall i :: 0 <= i < |r| ==> r[i].createdAt > s
  {
    if ts == [] then []
    else
      var t := ts[|ts| - 1];
      After(ts[..|ts| - 1], s) + (if t.createdAt > s then [t] else [])
  }

  /** How each accumulated quantity grows when the prefix takes one more row. */
  lemma PrefixStep(ts: seq<LedgerRow>, j: int)
    requires 0 <= j < |ts|
    ensures forall n ::
      SumOfType(ts[..j + 1], n) ==
      SumOfType(ts[..j], n) + (if ts[j].typeName == n then ts[j].amount else 0)
    ensures forall m, n ::
      MonthSum(ts[..j + 1], m, n) ==
      MonthSum(ts[..j], m, n) + (if ts[j].month == m && ts[j].typeName == n then ts[j].amount else 0)
    ensures ExpensePairs(ts[..j + 1]) ==
      ExpensePairs(ts[..j]) + (if IsCategorisedExpense(ts[j]) then [(ts[j].category2.value, ts[j].amount)] else [])
    ensures forall s ::
      ChangeAfter(ts[..j + 1], s) ==
      ChangeAfter(ts[..j], s) + (if ts[j].createdAt > s then SignedAmount(ts[j]) else 0)
  {
    assert ts[..j + 1][..j] == ts[..j];
  }

  // ---------------------------------------------------------------------
  // The pass itself
  // ---------------------------------------------------------------------

  /** The seeding loop: one zero entry for each of the twelve months. */
  method SeedMonths(currentMonth: int) returns (monthMap: map<int, MonthPoint>)
    ensures forall m :: m in monthMap <==> InWindow(currentMonth, m)
    ensures forall m :: m in monthMap ==> monthMap[m] == MonthPoint(m, 0, 0)
  {
    monthMap := map[];
    for i := 0 to 12
      invariant forall m :: m in monthMap <==> currentMonth - i < m <= currentMonth
      invariant forall m :: m in monthMap ==> monthMap[m] == MonthPoint(m, 0, 0)
    {
      var key := currentMonth - i;
      monthMap := monthMap[key := MonthPoint(key, 0, 0)];
    }
  }

  /** `Object.values(monthMap).sort(by date)`: the twelve keys are distinct
      consecutive months, so the sorted order lists them oldest first. */
  method SortedMonths(monthMap: map<int, MonthPoint>, ts: seq<LedgerRow>, currentMonth: int)
    returns (months: seq<MonthPoint>)
    requires forall m :: m in monthMap <==> InWindow(currentMonth, m)
    requires forall m :: m in monthMap ==>
      monthMap[m] == MonthPoint(m, MonthSum(ts, m, IncomeName), MonthSum(ts, m, ExpenseName))
    ensures months == MonthSeries(ts, currentMonth)
  {
    months := [];
    for i := 0 to 12
      invariant |months| == i
      invariant forall k :: 0 <= k < i ==> months[k] == MonthSeries(ts, currentMonth)[k]
    {
      months := months + [monthMap[WindowMonth(currentMonth, i)]];
    }
  }

  /** `Object.keys(catExpenseMap).map(k => ({name: k, value: catExpenseMap[k]}))`,
      with `catOrder` the order in which the keys were created. */
  method CategoryList(catOrder: seq<string>, catExpense: map<string, int>, ts: seq<LedgerRow>)
    returns (breakdown: seq<CategoryPoint>)
    requires catOrder == Tally.Keys(ExpensePairs(ts))
    requires forall c :: c in catExpense <==> c in catOrder
    requires forall c :: c in catExpense ==> catExpense[c] == Tally.Weight(ExpensePairs(ts), c)
    ensures breakdown == Breakdown(ts)
  {
    breakdown := [];
    for k := 0 to |catOrder|
      invariant |breakdown| == k
      invariant forall n :: 0 <= n < k ==> breakdown[n] == Breakdown(ts)[n]
    {
      breakdown := breakdown + [CategoryPoint(catOrder[k], catExpense[catOrder[k]])];
    }
  }

  /** The chart step for one row: an "Income" or "Expense" row whose month is
      one of the seeded keys adds its amount to that month's entry. */
  method AddToMonth(monthMap: map<int, MonthPoint>, t: LedgerRow) returns (r: map<int, MonthPoint>)
    ensures forall m :: m in r <==> m in monthMap
    ensures forall m :: m in monthMap ==> r[m] == monthMap[m].(
      income := monthMap[m].income + (if t.month == m && t.typeName == IncomeName then t.amount else 0),
      expense := monthMap[m].expense + (if t.month == m && t.typeName == ExpenseName then t.amount else 0))
  {
    r := monthMap;
    if t.month in r {
      if t.typeName == IncomeName {
        r := r[t.month := r[t.month].(income := r[t.month].income + t.amount)];
      }
      if t.typeName == ExpenseName {
        r := r[t.month := r[t.month].(expense := r[t.month].expense + t.amount)];
      }
    }
  }

  /** The breakdown step for one row: `catExpenseMap[c2] = (catExpenseMap[c2] || 0) + val`
      for an "Expense" row with a non-empty source name; `catOrder` records
      the order in which keys are created. */
  method AddExpense(catOrder: seq<string>, catExpense: map<string, int>, pairs: seq<(string, int)>, t: LedgerRow)
    returns (order: seq<string>, sums: map<string, int>)
    requires catOrder == Tally.Keys(pairs)
    requires forall c :: c in catExpense <==> c in catOrder
    requires forall c :: c in catExpense ==> catExpense[c] == Tally.Weight(pairs, c)
    ensures var next := pairs + (if IsCategorisedExpense(t) then [(t.category2.value, t.amount)] else []);
      && order == Tally.Keys(next)
      && (forall c :: c in sums <==> c in order)
      && (forall c :: c in sums ==> sums[c] == Tally.Weight(next, c))
  {
    order, sums := catOrder, catExpense;
    if t.typeName == ExpenseName && t.category2.Some? && t.category2.value != "" {
      var c2 := t.category2.value;
      var p := (c2, t.amount);
      assert (pairs + [p])[..|pairs|] == pairs;
      if c2 !in sums {
        Tally.AbsentWeight(pairs, c2);
        order := order + [c2];
      }
      sums := sums[c2 := (if c2 in sums then sums[c2] else 0) + t.amount];
    } else {
      assert pairs + [] == pairs;
    }
  }

  /** Step 3 of `loadData`: seed twelve zero months, fold the rows into the
      accumulators and the two maps, then list the months oldest first and
      the categories in the order their keys were created. */
  method ProcessTransactions(ts: seq<LedgerRow>, currentMonth: int, snapshot: Option<int>)
    returns (v: LedgerView)
    ensures v == View(ts, currentMonth, snapshot)
  {
    var income, expense, loan, settlement := 0, 0, 0, 0;
    var balanceChange := 0;
    var catExpense: map<string, int> := map[];
    var catOrder: seq<string> := [];
    var monthMap := SeedMonths(currentMonth);

    for j := 0 to |ts|
      invariant income == SumOfType(ts[..j], IncomeName)
      invariant expense == SumOfType(ts[..j], ExpenseName)
      invariant loan == SumOfType(ts[..j], LoanName)
      invariant settlement == SumOfType(ts[..j], SettlementName)
      invariant forall m :: m in monthMap <==> InWindow(currentMonth, m)
      invariant forall m :: m in monthMap ==>
        monthMap[m] == MonthPoint(m, MonthSum(ts[..j], m, IncomeName), MonthSum(ts[..j], m, ExpenseName))
      invariant catOrder == Tally.Keys(ExpensePairs(ts[..j]))
      invariant forall c :: c in catExpense <==> c in catOrder
      invariant forall c :: c in catExpense ==> catExpense[c] == Tally.Weight(ExpensePairs(ts[..j]), c)
      invariant balanceChange == BalanceChange(ts[..j], snapshot)
    {
      var t := ts[j];
      PrefixStep(ts, j);
      var before := ExpensePairs(ts[..j]);

      // A. standard stats
      if t.typeName == IncomeName { income := income + t.amount; }
      if t.typeName == ExpenseName { expense := expense + t.amount; }
      if t.typeName == LoanName { loan := loan + t.amount; }
      if t.typeName == SettlementName { settlement := settlement + t.amount; }

      // B. charts
      monthMap := AddToMonth(monthMap, t);
      catOrder, catExpense := AddExpense(catOrder, catExpense, before, t);

      // C. bank balance
      if snapshot.Some? {
        if t.createdAt > snapshot.value {
          if t.typeName == IncomeName { balanceChange := balanceChange + t.amount; }
          if t.typeName == ExpenseName { balanceChange := balanceChange - t.amount; }
          if t.typeName == SettlementName { balanceChange := balanceChange - t.amount; }
        }
      }
    }
    assert ts[..|ts|] == ts;

    var months := SortedMonths(monthMap, ts, currentMonth);
    var breakdown := CategoryList(catOrder, catExpense, ts);
    v := LedgerView(Stats(income, expense, loan, settlement), months, breakdown, balanceChange);
  }

  // ---------------------------------------------------------------------
  // The dashboard's state
  // ---------------------------------------------------------------------

  /** The state `DashboardWithLogic` keeps between renders. */
  class DashboardState {
    var stats: Stats
    var initialBalance: int
    var balanceUpdatedAt: Option<int>
    var liveBalanceChange: int
    var monthlyData: seq<MonthPoint>
    var categoryData: seq<CategoryPoint>

    constructor ()
      ensures stats == Stats(0, 0, 0, 0) && liveBalanceChange == 0
      ensures initialBalance == 0 && balanceUpdatedAt == None
      ensures monthlyData == [] && categoryData == []
    {
      stats := Stats(0, 0, 0, 0);
      initialBalance := 0;
      balanceUpdatedAt := None;
      liveBalanceChange := 0;
      monthlyData := [];
      categoryData := [];
    }

    /** The amount the bank card shows. */
    function CurrentBankBalance(): int
      reads this
    {
      initialBalance + liveBalanceChange
    }

    /** `loadData`: `profile` is the profile row (None when there is no user or
        no row); `fetched` is the transaction query's outcome. The profile
        fields are stored before the query's error is looked at, so a failed
        query still updates them and leaves every derived field as it was. */
    method LoadData(profile: Option<ProfileRow>, fetched: Fetch<seq<LedgerRow>>, currentMonth: int)
      modifies this
      ensures profile.Some? ==>
        initialBalance == profile.value.initialBalance.GetOr(0) && balanceUpdatedAt == profile.value.balanceUpdatedAt
      ensures profile.None? ==>
        initialBalance == old(initialBalance) && balanceUpdatedAt == old(balanceUpdatedAt)
      ensures fetched.FetchError? ==>
        stats == old(stats) && liveBalanceChange == old(liveBalanceChange)
        && monthlyData == old(monthlyData) && categoryData == old(categoryData)
      ensures fetched.Fetched? ==>
        var snapshot := if profile.Some? then profile.value.balanceUpdatedAt else None;
        var v := View(fetched.data, currentMonth, snapshot);
        stats == v.stats && liveBalanceChange == v.balanceChange
        && monthlyData == v.months && categoryData == v.breakdown
      ensures fetched.Fetched? && profile.Some? ==>
        CurrentBankBalance() == LiveBalance(profile.value.initialBalance.GetOr(0), fetched.data,
                                            profile.value.balanceUpdatedAt)
    {
      var profileDate: Option<int> := None;
      if profile.Some? {
        initialBalance := profile.value.initialBalance.GetOr(0);
        profileDate := profile.value.balanceUpdatedAt;
        balanceUpdatedAt := profileDate;
      }
      if fetched.FetchError? {
        return;
      }
      var v := ProcessTransactions(fetched.data, currentMonth, profileDate);
      stats := v.stats;
      liveBalanceChange := v.balanceChange;
      monthlyData := v.months;
      categoryData := v.breakdown;
    }
  }

  // ---------------------------------------------------------------------
  // Properties
  // ---------------------------------------------------------------------

  /** A row whose type name is none of the four recognised names changes no
      total, no month and not the balance. */
  lemma UnrecognisedTypeIgnored(ts: seq<LedgerRow>, t: LedgerRow, currentMonth: int, snapshot: Option<int>)
    requires t.typeName !in {IncomeName, ExpenseName, LoanName, SettlementName}
    ensures View(ts + [t], currentMonth, snapshot).stats == View(ts, currentMonth, snapshot).stats
    ensures View(ts + [t], currentMonth, snapshot).months == View(ts, currentMonth, snapshot).months
    ensures View(ts + [t], currentMonth, snapshot).balanceChange == View(ts, currentMonth, snapshot).balanceChange
  {
    var us := ts + [t];
    assert us[..|us| - 1] == ts;
  }

  /** The month series has exactly twelve entries, one per month from eleven
      months ago to the current month, strictly ascending. */
  lemma MonthSeriesShape(ts: seq<LedgerRow>, currentMonth: int)
    ensures |MonthSeries(ts, currentMonth)| == 12
    ensures forall i :: 0 <= i < 12 ==> MonthSeries(ts, currentMonth)[i].month == currentMonth - 11 + i
    ensures forall i, j :: 0 <= i < j < 12 ==>
      MonthSeries(ts, currentMonth)[i].month < MonthSeries(ts, currentMonth)[j].month
    ensures MonthSeries(ts, currentMonth)[11].month == currentMonth
    ensures forall m :: InWindow(currentMonth, m) <==>
      exists i :: 0 <= i < 12 && MonthSeries(ts, currentMonth)[i].month == m
  {
    var ms := MonthSeries(ts, currentMonth);
    forall m | InWindow(currentMonth, m)
      ensures exists i :: 0 <= i < 12 && ms[i].month == m
    {
      assert ms[m - currentMonth + 11].month == m;
    }
  }

  /** With no rows every seeded month is still present, at zero. */
  lemma EmptyMonthSeries(currentMonth: int)
    ensures |MonthSeries([], currentMonth)| == 12
    ensures forall i :: 0 <= i < 12 ==>
      MonthSeries([], currentMonth)[i] == MonthPoint(currentMonth - 11 + i, 0, 0)
  {
  }

  /** A row dated outside the twelve-month window changes no month entry,
      and still counts in the total of its type. */
  lemma OutOfWindowRow(ts: seq<LedgerRow>, t: LedgerRow, currentMonth: int)
    requires !InWindow(currentMonth, t.month)
    ensures MonthSeries(ts + [t], currentMonth) == MonthSeries(ts, currentMonth)
    ensures SumOfType(ts + [t], t.typeName) == SumOfType(ts, t.typeName) + t.amount
  {
    var us := ts + [t];
    assert us[..|us| - 1] == ts;
  }

  /** Only "Income" and "Expense" rows move the month series. */
  lemma OnlyIncomeExpenseMoveMonths(ts: seq<LedgerRow>, t: LedgerRow, currentMonth: int)
    requires t.typeName != IncomeName && t.typeName != ExpenseName
    ensures MonthSeries(ts + [t], currentMonth) == MonthSeries(ts, currentMonth)
  {
    var us := ts + [t];
    assert us[..|us| - 1] == ts;
  }

  /** An "Income" row inside the window adds its amount to exactly its own
      month's income. */
  lemma IncomeRowMovesItsMonth(ts: seq<LedgerRow>, t: LedgerRow, currentMonth: int, i: int)
    requires t.typeName == IncomeName && 0 <= i < 12
    ensures MonthSeries(ts + [t], currentMonth)[i].income ==
      MonthSeries(ts, currentMonth)[i].income + (if t.month == currentMonth - 11 + i then t.amount else 0)
    ensures MonthSeries(ts + [t], currentMonth)[i].expense == MonthSeries(ts, currentMonth)[i].expense
  {
    var us := ts + [t];
    assert us[..|us| - 1] == ts;
  }

  /** Some "Expense" row carries `c` as its non-empty source-category name. */
  predicate HasExpenseIn(ts: seq<LedgerRow>, c: string) {
    exists i :: 0 <= i < |ts| && IsCategorisedExpense(ts[i]) && ts[i].category2.value == c
  }

  /** `c` names one of the slices. */
  predicate Listed(b: seq<CategoryPoint>, c: string) {
    exists i :: 0 <= i < |b| && b[i].name == c
  }

  /** The row a pair of the breakdown feed comes from. */
  function RowOfPair(ts: seq<LedgerRow>, k: int): (i: int)
    requires 0 <= k < |ExpensePairs(ts)|
    ensures 0 <= i < |ts| && IsCategorisedExpense(ts[i])
    ensures ExpensePairs(ts)[k] == (ts[i].category2.value, ts[i].amount)
  {
    var init := ts[..|ts| - 1];
    if k < |ExpensePairs(init)| then
      var i := RowOfPair(init, k);
      assert init[i] == ts[i];
      i
    else |ts| - 1
  }

  /** The pair of the breakdown feed a categorised expense row yields. */
  function PairOfRow(ts: seq<LedgerRow>, i: int): (k: int)
    requires 0 <= i < |ts| && IsCategorisedExpense(ts[i])
    ensures 0 <= k < |ExpensePairs(ts)|
    ensures ExpensePairs(ts)[k] == (ts[i].category2.value, ts[i].amount)
  {
    var init := ts[..|ts| - 1];
    if i == |ts| - 1 then |ExpensePairs(init)|
    else
      assert init[i] == ts[i];
      PairOfRow(init, i)
  }

  lemma ExpensePairsOccur(ts: seq<LedgerRow>, c: string)
    ensures (exists k :: 0 <= k < |ExpensePairs(ts)| && ExpensePairs(ts)[k].0 == c) <==> HasExpenseIn(ts, c)
  {
    if HasExpenseIn(ts, c) {
      var i :| 0 <= i < |ts| && IsCategorisedExpense(ts[i]) && ts[i].category2.value == c;
      var k := PairOfRow(ts, i);
      assert 0 <= k < |ExpensePairs(ts)| && ExpensePairs(ts)[k].0 == c;
    }
    if exists k :: 0 <= k < |ExpensePairs(ts)| && ExpensePairs(ts)[k].0 == c {
      var k :| 0 <= k < |ExpensePairs(ts)| && ExpensePairs(ts)[k].0 == c;
      var i := RowOfPair(ts, k);
      assert 0 <= i < |ts| && IsCategorisedExpense(ts[i]) && ts[i].category2.value == c;
      assert HasExpenseIn(ts, c);
    }
  }

  /** The breakdown lists each category name at most once, and a name appears
      exactly when some "Expense" row carries it as its (non-empty) source
      category; each value is that category's expense sum. */
  lemma BreakdownKeys(ts: seq<LedgerRow>)
    ensures forall i, j :: 0 <= i < j < |Breakdown(ts)| ==> Breakdown(ts)[i].name != Breakdown(ts)[j].name
    ensures forall c :: Listed(Breakdown(ts), c) <==> HasExpenseIn(ts, c)
    ensures forall i :: 0 <= i < |Breakdown(ts)| ==>
      Breakdown(ts)[i].value == Tally.Weight(ExpensePairs(ts), Breakdown(ts)[i].name)
  {
    var ks := Tally.Keys(ExpensePairs(ts));
    var b := Breakdown(ts);
    forall c
      ensures Listed(b, c) <==> HasExpenseIn(ts, c)
    {
      ExpensePairsOccur(ts, c);
      if Listed(b, c) {
        var i :| 0 <= i < |b| && b[i].name == c;
        assert ks[i] == c;
      }
      if c in ks {
        var i :| 0 <= i < |ks| && ks[i] == c;
        assert b[i].name == c;
      }
    }
  }

  /** Sum of the values of a list of chart points. */
  function PointsTotal(ps: seq<CategoryPoint>): int {
    if ps == [] then 0 else PointsTotal(ps[..|ps| - 1]) + ps[|ps| - 1].value
  }

  /** Expense amounts the breakdown leaves out: no or an empty source name. */
  function UncategorisedExpense(ts: seq<LedgerRow>): int {
    if ts == [] then 0
    else
      var t := ts[|ts| - 1];
      UncategorisedExpense(ts[..|ts| - 1])
        + (if t.typeName == ExpenseName && !IsCategorisedExpense(t) then t.amount else 0)
  }

  lemma {:induction false} PairsTotal(ts: seq<LedgerRow>)
    ensures Tally.Total(ExpensePairs(ts)) + UncategorisedExpense(ts) == SumOfType(ts, ExpenseName)
  {
    if ts != [] {
      var init := ts[..|ts| - 1];
      var t := ts[|ts| - 1];
      PairsTotal(init);
      var ps := ExpensePairs(init);
      if IsCategorisedExpense(t) {
        var p := (t.category2.value, t.amount);
        assert ExpensePairs(ts) == ps + [p];
        assert (ps + [p])[..|ps|] == ps;
      } else {
        assert ExpensePairs(ts) == ps;
      }
    }
  }

  lemma {:induction false} PointsOverKeys(ks: seq<string>, ps: seq<(string, int)>)
    ensures PointsTotal(seq(|ks|, k requires 0 <= k < |ks| => CategoryPoint(ks[k], Tally.Weight(ps, ks[k]))))
            == Tally.SumOver(ks, ps)
  {
    if ks != [] {
      var front := ks[..|ks| - 1];
      PointsOverKeys(front, ps);
      var full := seq(|ks|, k requires 0 <= k < |ks| => CategoryPoint(ks[k], Tally.Weight(ps, ks[k])));
      var part := seq(|front|, k requires 0 <= k < |front| => CategoryPoint(front[k], Tally.Weight(ps, front[k])));
      assert full[..|full| - 1] == part;
    }
  }

  /** The expense chart and the Expense card agree: the breakdown's values
      add up to the expense total less the expenses with no source name. */
  lemma BreakdownAddsUp(ts: seq<LedgerRow>)
    ensures PointsTotal(Breakdown(ts)) + UncategorisedExpense(ts) == SumOfType(ts, ExpenseName)
  {
    var ps := ExpensePairs(ts);
    PointsOverKeys(Tally.Keys(ps), ps);
    Tally.SumOverKeys(ps);
    PairsTotal(ts);
  }

  /** Without a snapshot time the bank card shows the snapshot balance,
      whatever the rows. */
  lemma NoSnapshotNoChange(initialBalance: int, ts: seq<LedgerRow>)
    ensures LiveBalance(initialBalance, ts, None) == initialBalance
  {
  }

  /** Only rows created strictly after the snapshot move the balance: the
      live balance over all rows equals the one over those rows alone. */
  lemma {:induction false} EarlierRowsIgnored(initialBalance: int, ts: seq<LedgerRow>, s: int)
    ensures LiveBalance(initialBalance, ts, Some(s)) == LiveBalance(initialBalance, After(ts, s), Some(s))
  {
    AfterChange(ts, s);
  }

  lemma {:induction false} AfterChange(ts: seq<LedgerRow>, s: int)
    ensures ChangeAfter(ts, s) == ChangeAfter(After(ts, s), s)
  {
    if ts != [] {
      var init := ts[..|ts| - 1];
      var t := ts[|ts| - 1];
      AfterChange(init, s);
      var a := After(init, s);
      if t.createdAt > s {
        assert After(ts, s) == a + [t];
        assert (a + [t])[..|a|] == a;
      } else {
        assert After(ts, s) == a;
      }
    }
  }

  /** The balance change is the income minus the expense and settlement
      totals of the rows created after the snapshot; a "Loan" never moves it. */
  lemma {:induction false} ChangeByType(ts: seq<LedgerRow>, s: int)
    ensures BalanceChange(ts, Some(s)) ==
      SumOfType(After(ts, s), IncomeName) - SumOfType(After(ts, s), ExpenseName)
      - SumOfType(After(ts, s), SettlementName)
  {
    if ts != [] {
      var init := ts[..|ts| - 1];
      var t := ts[|ts| - 1];
      ChangeByType(init, s);
      var a := After(init, s);
      assert ChangeAfter(ts, s) == ChangeAfter(init, s) + (if t.createdAt > s then SignedAmount(t) else 0);
      if t.createdAt > s {
        assert After(ts, s) == a + [t];
        SumOfTypeSnoc(a, t, IncomeName);
        SumOfTypeSnoc(a, t, ExpenseName);
        SumOfTypeSnoc(a, t, SettlementName);
      } else {
        assert After(ts, s) == a;
      }
    }
  }

  lemma SumOfTypeSnoc(a: seq<LedgerRow>, t: LedgerRow, name: string)
    ensures SumOfType(a + [t], name) == SumOfType(a, name) + (if t.typeName == name then t.amount else 0)
  {
    assert (a + [t])[..|a|] == a;
  }

  /** The reconciliation example: snapshot 1000 at time T, an Income of 200
      entered at T+1 and an Expense of 50 entered at T-1 give 1200. */
  lemma ReconciliationExample(T: int)
    ensures LiveBalance(1000, [LedgerRow(200, 0, T + 1, IncomeName, None),
                               LedgerRow(50, 0, T - 1, ExpenseName, None)], Some(T)) == 1200
  {
    var ts := [LedgerRow(200, 0, T + 1, IncomeName, None), LedgerRow(50, 0, T - 1, ExpenseName, None)];
    assert ts[..1] == [ts[0]];
    assert ts[..1][..0] == [];
    assert ChangeAfter(ts[..1], T) == 200;
    assert ChangeAfter(ts, T) == 200;
  }

  /** The transaction query's `.gte("date", startDate)`: only rows dated in
      the oldest of the twelve chart months or later are fetched. */
  function QueryWindow(all: seq<LedgerRow>, currentMonth: int): (r: seq<LedgerRow>)
    ensures |r| <= |all|
    ensures forall i :: 0 <= i < |r| ==> r[i].month >= WindowMonth(currentMonth, 0)
    ensures forall t :: t in all && t.month >= WindowMonth(currentMonth, 0) ==> t in r
    ensures forall t :: t in r ==> t in all
  {
    if all == [] then []
    else
      var t := all[|all| - 1];
      var front := all[..|all| - 1];
      assert all == front + [t];
      QueryWindow(front, currentMonth) + (if t.month >= WindowMonth(currentMonth, 0) then [t] else [])
  }

  /** The query filters each part of a list in turn, so the kept rows stay
      in their order and each is kept once. */
  lemma {:induction false} QueryWindowAppend(a: seq<LedgerRow>, b: seq<LedgerRow>, currentMonth: int)
    ensures QueryWindow(a + b, currentMonth) == QueryWindow(a, currentMonth) + QueryWindow(b, currentMonth)
    decreases |b|
  {
    if b == [] {
      assert a + b == a;
    } else {
      var front := b[..|b| - 1];
      var t := b[|b| - 1];
      var tail := if t.month >= WindowMonth(currentMonth, 0) then [t] else [];
      assert (a + b)[..|a + b| - 1] == a + front;
      assert (a + b)[|a + b| - 1] == t;
      QueryWindowAppend(a, front, currentMonth);
      assert QueryWindow(a + b, currentMonth) == QueryWindow(a + front, currentMonth) + tail;
      assert QueryWindow(b, currentMonth) == QueryWindow(front, currentMonth) + tail;
    }
  }

  /** A single row is kept exactly when it is dated in the oldest chart
      month or later. */
  lemma QueryWindowOne(t: LedgerRow, currentMonth: int)
    ensures QueryWindow([t], currentMonth) == (if t.month >= WindowMonth(currentMonth, 0) then [t] else [])
  {
    assert [t][..0] == [];
  }

  /** Since the balance change is computed over the fetched rows only, an
      entry dated before the chart's oldest month never reaches the bank
      card, even when it was created after the snapshot. */
  lemma BackdatedEntryMissed(all: seq<LedgerRow>, t: LedgerRow, currentMonth: int, snapshot: Option<int>)
    requires t.month < WindowMonth(currentMonth, 0)
    ensures BalanceChange(QueryWindow(all + [t], currentMonth), snapshot) ==
            BalanceChange(QueryWindow(all, currentMonth), snapshot)
  {
    var us := all + [t];
    assert us[..|us| - 1] == all;
    assert QueryWindow(us, currentMonth) == QueryWindow(all, currentMonth);
  }

  /** Over the whole history, as the balance is meant to be kept, an entry
      created after the snapshot moves the balance by its signed amount,
      whatever month it is dated. */
  lemma LaterEntryCounts(all: seq<LedgerRow>, t: LedgerRow, s: int)
    requires t.createdAt > s
    ensures BalanceChange(all + [t], Some(s)) == BalanceChange(all, Some(s)) + SignedAmount(t)
  {
    var us := all + [t];
    assert us[..|us| - 1] == all;
  }

  /** An Income of 100 dated twelve months back and created after the
      snapshot: the fetched rows give no change, the whole history gives 100. */
  lemma BackdatedIncomeExample(currentMonth: int, s: int)
    ensures var t := LedgerRow(100, currentMonth - 12, s + 1, IncomeName, None);
      && BalanceChange(QueryWindow([t], currentMonth), Some(s)) == 0
      && BalanceChange([t], Some(s)) == 100
  {
    var t := LedgerRow(100, currentMonth - 12, s + 1, IncomeName, None);
    BackdatedEntryMissed([], t, currentMonth, Some(s));
    LaterEntryCounts([], t, s);
    assert [] + [t] == [t];
  }
}
