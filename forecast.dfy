/** The bank-centred forecast of the current month: which active recurring
    patterns are still pending, and a day-by-day projection of the bank
    balance from today to the month's last day in which only the patterns
    paid from a bank account move the line. Amounts are agorot (a rounded
    amount is a whole number of shekels, in agorot); dates are day numbers. */
module Forecast {
  import opened Common
  import opened Calendar
  import opened Db

  datatype ItemKind = IncomeItem | ExpenseItem

  /** A row of the pattern query: an active pattern of the household, joined
      with its category, that category's parent and its account. A left join
      that finds nothing gives None. */
  datatype ForecastPattern = ForecastPattern(
    id: string,
    description: string,
    expectedAmount: int,
    nextExpectedDate: Option<int>,
    categoryName: Option<string>,
    categoryIcon: Option<string>,
    parentCategoryName: Option<string>,
    accountType: Option<AccountType>)

  datatype PendingRecurring = PendingRecurring(
    id: string,
    description: string,
    expectedAmount: int,
    expectedDate: int,
    kind: ItemKind,
    accountType: AccountType,
    categoryName: Option<string>,
    categoryIcon: Option<string>)

  datatype ForecastPendingItem = ForecastPendingItem(
    description: string, amount: int, kind: ItemKind, categoryName: Option<string>, categoryIcon: Option<string>)

  /** One day of the chart; `labelText` (the source's `label`) and `items` are present only on a day
      with pending items. */
  datatype ForecastDataPoint = ForecastDataPoint(
    date: int, balance: int, labelText: Option<string>, items: Option<seq<ForecastPendingItem>>)

  datatype ForecastResult = ForecastResult(
    bankBalance: int,
    projectedEndOfMonth: int,
    isSafe: bool,
    ccLiability: int,
    totalPendingBankIncome: int,
    totalPendingBankExpenses: int,
    dataPoints: seq<ForecastDataPoint>,
    pendingRecurring: seq<PendingRecurring>)

  const IncomeName: string := "Income"
  const LabelSeparator: string := ", "

  // ---------------------------------------------------------------------
  // Numbers

  /** `Math.round` of the shekel amount `agorot / 100`, given back in
      agorot: whole shekels, a half going up. */
  function Round(agorot: int): int {
    (agorot + 50) / 100 * 100
  }

  /** `Round` gives the whole number of shekels nearest to the amount, and
      leaves a whole number of shekels as it is. */
  lemma RoundIsNearest(agorot: int)
    ensures Round(agorot) % 100 == 0
    ensures Round(agorot) - 50 <= agorot < Round(agorot) + 50
    ensures agorot % 100 == 0 ==> Round(agorot) == agorot
  {
  }

  lemma RoundSame(x: int, y: int)
    requires x == y
    ensures Round(x) == Round(y)
  {
  }

  // ---------------------------------------------------------------------
  // Fulfilment and pending selection

  /** A description as the matching compares it: trimmed and lower-cased. */
  function Normalize(s: string): (r: string)
    ensures |r| <= |s|
  {
    Lower(Trim(s))
  }

  /** The household's transactions of `[monthStart, monthEnd)`. */
  predicate InMonth(tx: TxRow, householdId: string, monthStart: int, monthEnd: int) {
    tx.householdId == householdId && monthStart <= tx.date < monthEnd
  }

  /** One transaction fulfils a pattern: either normalised description
      contains the other, and the transaction's absolute amount is within
      20% of the expected amount. */
  predicate Matches(p: ForecastPattern, tx: TxRow) {
    var desc := Normalize(tx.description);
    var pattern := Normalize(p.description);
    (Contains(desc, pattern) || Contains(pattern, desc))
    && 5 * Abs(Abs(tx.amount) - p.expectedAmount) <= p.expectedAmount
  }

  /** Some transaction of the month fulfils the pattern. */
  predicate Fulfilled(p: ForecastPattern, txs: seq<TxRow>, householdId: string, monthStart: int, monthEnd: int) {
    exists i | 0 <= i < |txs| :: InMonth(txs[i], householdId, monthStart, monthEnd) && Matches(p, txs[i])
  }

  /** Income when the category's parent is "Income", or the category is the
      root "Income" itself. */
  predicate IsIncome(p: ForecastPattern) {
    p.parentCategoryName == Some(IncomeName) || (p.categoryName == Some(IncomeName) && p.parentCategoryName.None?)
  }

  /** What the pending loop pushes for one pattern, if anything. */
  function PendingItem(p: ForecastPattern, txs: seq<TxRow>, householdId: string, monthStart: int, monthEnd: int, today: int)
    : (r: Option<PendingRecurring>)
    ensures r.Some? <==>
      && !Fulfilled(p, txs, householdId, monthStart, monthEnd)
      && p.nextExpectedDate.Some? && monthStart <= p.nextExpectedDate.value < monthEnd
    ensures r.Some? ==>
      && r.value.id == p.id && r.value.description == p.description && r.value.expectedAmount == p.expectedAmount
      && r.value.categoryName == p.categoryName && r.value.categoryIcon == p.categoryIcon
      && (r.value.kind == IncomeItem <==> IsIncome(p))
      && (p.accountType.None? ==> r.value.accountType == Bank)
      && (p.accountType.Some? ==> r.value.accountType == p.accountType.value)
    ensures r.Some? ==>
      && r.value.expectedDate >= today && r.value.expectedDate >= p.nextExpectedDate.value
      && (r.value.expectedDate == today || r.value.expectedDate == p.nextExpectedDate.value)
  {
    if Fulfilled(p, txs, householdId, monthStart, monthEnd) then None
    else if p.nextExpectedDate.None? then None
    else
      var expected := p.nextExpectedDate.value;
      if expected < monthStart || expected >= monthEnd then None
      else
        var effective := if expected < today then today else expected;
        Some(PendingRecurring(p.id, p.description, p.expectedAmount, effective,
                              if IsIncome(p) then IncomeItem else ExpenseItem,
                              p.accountType.GetOr(Bank), p.categoryName, p.categoryIcon))
  }

  /** The pending list: the patterns' items in query order. */
  function PendingList(patterns: seq<ForecastPattern>, txs: seq<TxRow>, householdId: string, monthStart: int, monthEnd: int,
                       today: int): (r: seq<PendingRecurring>)
    ensures |r| <= |patterns|
  {
    if patterns == [] then []
    else
      var init := PendingList(patterns[..|patterns| - 1], txs, householdId, monthStart, monthEnd, today);
      match PendingItem(patterns[|patterns| - 1], txs, householdId, monthStart, monthEnd, today)
      case None => init
      case Some(item) => init + [item]
  }

  /** An item is pending exactly when some pattern yields it. */
  lemma {:induction false} PendingListMembers(patterns: seq<ForecastPattern>, txs: seq<TxRow>, householdId: string,
                                              monthStart: int, monthEnd: int, today: int)
    ensures forall x :: x in PendingList(patterns, txs, householdId, monthStart, monthEnd, today) <==>
      exists i :: 0 <= i < |patterns| && PendingItem(patterns[i], txs, householdId, monthStart, monthEnd, today) == Some(x)
  {
    if patterns != [] {
      var init := patterns[..|patterns| - 1];
      PendingListMembers(init, txs, householdId, monthStart, monthEnd, today);
      assert forall i :: 0 <= i < |init| ==> init[i] == patterns[i];
    }
  }

  /** With today inside the month, every pending item falls between today
      and the month's end: overdue items are moved to today, and nothing
      outside the month is pending. */
  lemma PendingDatesInWindow(patterns: seq<ForecastPattern>, txs: seq<TxRow>, householdId: string,
                             monthStart: int, monthEnd: int, today: int)
    requires monthStart <= today < monthEnd
    ensures forall x :: x in PendingList(patterns, txs, householdId, monthStart, monthEnd, today) ==>
      today <= x.expectedDate < monthEnd
  {
    PendingListMembers(patterns, txs, householdId, monthStart, monthEnd, today);
  }

  /** The pending loop of `calculateForecast`. */
  method CollectPending(patterns: seq<ForecastPattern>, txs: seq<TxRow>, householdId: string, monthStart: int, monthEnd: int,
                        today: int) returns (pending: seq<PendingRecurring>)
    ensures pending == PendingList(patterns, txs, householdId, monthStart, monthEnd, today)
  {
    pending := [];
    for i := 0 to |patterns|
      invariant pending == PendingList(patterns[..i], txs, householdId, monthStart, monthEnd, today)
    {
      assert patterns[..i + 1][..i] == patterns[..i];
      var p := patterns[i];
      if Fulfilled(p, txs, householdId, monthStart, monthEnd) {
        continue;
      }
      if p.nextExpectedDate.None? {
        continue;
      }
      var expected := p.nextExpectedDate.value;
      if expected < monthStart || expected >= monthEnd {
        continue;
      }
      var kind := if IsIncome(p) then IncomeItem else ExpenseItem;
      var accountType := p.accountType.GetOr(Bank);
      var effective := if expected < today then today else expected;
      pending := pending + [PendingRecurring(p.id, p.description, p.expectedAmount, effective, kind, accountType,
                                             p.categoryName, p.categoryIcon)];
    }
    assert patterns[..|patterns|] == patterns;
  }

  // ---------------------------------------------------------------------
  // Bank items and their sums

  /** The pending items paid from a bank account, in order. */
  function BankOnly(items: seq<PendingRecurring>): seq<PendingRecurring> {
    if items == [] then []
    else
      var init := BankOnly(items[..|items| - 1]);
      var last := items[|items| - 1];
      if last.accountType == Bank then init + [last] else init
  }

  /** The bank items are exactly the pending items paid from a bank account. */
  lemma {:induction false} BankOnlyMembers(items: seq<PendingRecurring>)
    ensures |BankOnly(items)| <= |items|
    ensures forall x :: x in BankOnly(items) <==> x in items && x.accountType == Bank
  {
    if items != [] {
      BankOnlyMembers(items[..|items| - 1]);
      assert items == items[..|items| - 1] + [items[|items| - 1]];
    }
  }

  /** The items dated `d`, in order: `todaysPending`. */
  function OnDay(items: seq<PendingRecurring>, d: int): seq<PendingRecurring> {
    if items == [] then []
    else
      var init := OnDay(items[..|items| - 1], d);
      var last := items[|items| - 1];
      if last.expectedDate == d then init + [last] else init
  }

  /** A day's items are exactly the items dated that day. */
  lemma {:induction false} OnDayMembers(items: seq<PendingRecurring>, d: int)
    ensures |OnDay(items, d)| <= |items|
    ensures forall x :: x in OnDay(items, d) <==> x in items && x.expectedDate == d
  {
    if items != [] {
      OnDayMembers(items[..|items| - 1], d);
      assert items == items[..|items| - 1] + [items[|items| - 1]];
    }
  }

  /** What one item does to the running balance. */
  function Signed(item: PendingRecurring): int {
    if item.kind == IncomeItem then item.expectedAmount else -item.expectedAmount
  }

  /** The combined effect of a list of items. */
  function Net(items: seq<PendingRecurring>): int {
    if items == [] then 0 else Net(items[..|items| - 1]) + Signed(items[|items| - 1])
  }

  /** The combined effect of the items dated in `[lo, hi)`. */
  function NetIn(items: seq<PendingRecurring>, lo: int, hi: int): int {
    if items == [] then 0
    else
      var last := items[|items| - 1];
      NetIn(items[..|items| - 1], lo, hi) + (if lo <= last.expectedDate < hi then Signed(last) else 0)
  }

  /** The sum of the expected amounts of the income items. */
  function IncomeTotal(items: seq<PendingRecurring>): int {
    if items == [] then 0
    else IncomeTotal(items[..|items| - 1]) + (if items[|items| - 1].kind == IncomeItem then items[|items| - 1].expectedAmount else 0)
  }

  /** The sum of the expected amounts of the expense items. */
  function ExpenseTotal(items: seq<PendingRecurring>): int {
    if items == [] then 0
    else ExpenseTotal(items[..|items| - 1]) + (if items[|items| - 1].kind == ExpenseItem then items[|items| - 1].expectedAmount else 0)
  }

  /** The items' effect is their income less their expenses. */
  lemma {:induction false} NetIsIncomeLessExpenses(items: seq<PendingRecurring>)
    ensures Net(items) == IncomeTotal(items) - ExpenseTotal(items)
  {
    if items != [] {
      NetIsIncomeLessExpenses(items[..|items| - 1]);
    }
  }

  /** Extending the window by one day adds that day's items. */
  lemma {:induction false} NetInStep(items: seq<PendingRecurring>, lo: int, d: int)
    requires lo <= d
    ensures NetIn(items, lo, d + 1) == NetIn(items, lo, d) + Net(OnDay(items, d))
  {
    if items != [] {
      var init := items[..|items| - 1];
      NetInStep(init, lo, d);
    }
  }

  /** When every item lies in `[lo, hi)` the window holds all of them. */
  lemma {:induction false} NetInAll(items: seq<PendingRecurring>, lo: int, hi: int)
    requires forall x :: x in items ==> lo <= x.expectedDate < hi
    ensures NetIn(items, lo, hi) == Net(items)
  {
    if items != [] {
      var init := items[..|items| - 1];
      assert forall x :: x in init ==> x in items;
      NetInAll(init, lo, hi);
    }
  }

  /** An empty window holds nothing. */
  lemma {:induction false} NetInEmpty(items: seq<PendingRecurring>, d: int)
    ensures NetIn(items, d, d) == 0
  {
    if items != [] {
      NetInEmpty(items[..|items| - 1], d);
    }
  }

  // ---------------------------------------------------------------------
  // The projection

  /** The items' descriptions, in order. */
  function Descriptions(items: seq<PendingRecurring>): seq<string> {
    if items == [] then [] else [items[0].description] + Descriptions(items[1..])
  }

  /** An item as the chart lists it. */
  function ChartItem(item: PendingRecurring): ForecastPendingItem {
    ForecastPendingItem(item.description, item.expectedAmount, item.kind, item.categoryName, item.categoryIcon)
  }

  /** The items as the chart lists them, in order. */
  function ChartItems(items: seq<PendingRecurring>): seq<ForecastPendingItem> {
    if items == [] then [] else [ChartItem(items[0])] + ChartItems(items[1..])
  }

  lemma {:induction false} DescriptionsAt(items: seq<PendingRecurring>)
    ensures |Descriptions(items)| == |items|
    ensures forall k :: 0 <= k < |items| ==> Descriptions(items)[k] == items[k].description
  {
    if items != [] {
      DescriptionsAt(items[1..]);
    }
  }

  lemma {:induction false} ChartItemsAt(items: seq<PendingRecurring>)
    ensures |ChartItems(items)| == |items|
    ensures forall k :: 0 <= k < |items| ==> ChartItems(items)[k] == ChartItem(items[k])
  {
    if items != [] {
      ChartItemsAt(items[1..]);
    }
  }

  /** The point of day `d` whose running balance is `running` and whose
      items are `todays`: rounded balance, and a label and item list only
      when the day has items. */
  function DataPoint(d: int, running: int, todays: seq<PendingRecurring>): ForecastDataPoint {
    if todays == [] then ForecastDataPoint(d, Round(running), None, None)
    else ForecastDataPoint(d, Round(running), Some(Join(Descriptions(todays), LabelSeparator)), Some(ChartItems(todays)))
  }

  /** A point carries its day and its rounded balance; a day without items
      has neither label nor items, a day with items has the descriptions
      joined by ", " and one chart item per pending item, in order. */
  lemma DataPointShape(d: int, running: int, todays: seq<PendingRecurring>)
    ensures var r := DataPoint(d, running, todays);
      && r.date == d && r.balance == Round(running)
      && (r.labelText.Some? <==> todays != []) && (r.items.Some? <==> todays != [])
      && (todays != [] ==> r.labelText.value == Join(Descriptions(todays), LabelSeparator))
      && (todays != [] ==> |r.items.value| == |todays|)
      && (forall k :: 0 <= k < |todays| ==> r.items.value[k] == ChartItem(todays[k]))
  {
    ChartItemsAt(todays);
  }

  /** The point of day `d`: the starting balance plus the effect of every
      item dated from today up to and including `d`. */
  function PointOn(bankPending: seq<PendingRecurring>, bankBalance: int, today: int, d: int): ForecastDataPoint {
    DataPoint(d, bankBalance + NetIn(bankPending, today, d + 1), OnDay(bankPending, d))
  }

  /** The chart from `today` up to, not including, day `end`: one point per
      day, in order. */
  function Chart(bankPending: seq<PendingRecurring>, bankBalance: int, today: int, end: int): (r: seq<ForecastDataPoint>)
    ensures |r| == if today < end then end - today else 0
    decreases end - today
  {
    if end <= today then [] else Chart(bankPending, bankBalance, today, end - 1) + [PointOn(bankPending, bankBalance, today, end - 1)]
  }

  /** The `k`-th point of the chart is the point of the `k`-th day after today. */
  lemma {:induction false} ChartAt(bankPending: seq<PendingRecurring>, bankBalance: int, today: int, end: int)
    ensures forall k :: 0 <= k < |Chart(bankPending, bankBalance, today, end)| ==>
      Chart(bankPending, bankBalance, today, end)[k] == PointOn(bankPending, bankBalance, today, today + k)
    decreases end - today
  {
    if today < end {
      ChartAt(bankPending, bankBalance, today, end - 1);
    }
  }

  /** The last point of a non-empty chart carries the starting balance plus
      every item dated in the chart's days. */
  lemma LastPoint(bankPending: seq<PendingRecurring>, bankBalance: int, today: int, end: int)
    requires today < end
    ensures Chart(bankPending, bankBalance, today, end)[end - today - 1].balance == Round(bankBalance + NetIn(bankPending, today, end))
  {
    assert Chart(bankPending, bankBalance, today, end)[end - today - 1] == PointOn(bankPending, bankBalance, today, end - 1);
  }

  /** The inner loop of a day: each income item adds its amount to the
      running balance, each expense item subtracts it. */
  method ApplyDay(running: int, todays: seq<PendingRecurring>) returns (after: int)
    ensures after == running + Net(todays)
    ensures after == running + IncomeTotal(todays) - ExpenseTotal(todays)
  {
    after := running;
    for j := 0 to |todays|
      invariant after == running + Net(todays[..j])
    {
      assert todays[..j + 1][..j] == todays[..j];
      if todays[j].kind == IncomeItem {
        after := after + todays[j].expectedAmount;
      } else {
        after := after - todays[j].expectedAmount;
      }
    }
    assert todays[..|todays|] == todays;
    NetIsIncomeLessExpenses(todays);
  }

  /** When every item falls in the chart's days, the chart ends on the
      starting balance plus the items' income less their expenses. */
  lemma EndOfMonth(bankPending: seq<PendingRecurring>, bankBalance: int, today: int, end: int)
    requires today < end
    requires forall x :: x in bankPending ==> today <= x.expectedDate < end
    ensures Chart(bankPending, bankBalance, today, end)[end - today - 1].balance
      == Round(bankBalance + IncomeTotal(bankPending) - ExpenseTotal(bankPending))
  {
    LastPoint(bankPending, bankBalance, today, end);
    NetInAll(bankPending, today, end);
    NetIsIncomeLessExpenses(bankPending);
    RoundSame(bankBalance + NetIn(bankPending, today, end), bankBalance + IncomeTotal(bankPending) - ExpenseTotal(bankPending));
  }

  /** The day loop: from `today` while the day is before `monthEnd`, apply
      the day's items to the running balance and push the day's point. */
  method Project(bankPending: seq<PendingRecurring>, bankBalance: int, today: int, monthEnd: int)
    returns (points: seq<ForecastDataPoint>)
    ensures points == Chart(bankPending, bankBalance, today, monthEnd)
  {
    points := [];
    var running := bankBalance;
    var d := today;
    NetInEmpty(bankPending, today);
    while d < monthEnd
      invariant today <= d && (d == today || d <= monthEnd)
      invariant running == bankBalance + NetIn(bankPending, today, d)
      invariant points == Chart(bankPending, bankBalance, today, d)
      decreases monthEnd - d
    {
      var todays := OnDay(bankPending, d);
      running := ApplyDay(running, todays);
      NetInStep(bankPending, today, d);
      assert running == bankBalance + NetIn(bankPending, today, d + 1);
      points := points + [DataPoint(d, running, todays)];
      d := d + 1;
    }
  }

  // ---------------------------------------------------------------------
  // The whole forecast

  /** The result `calculateForecast` assembles from the pending list of the
      day `today` of a month ending before `monthEnd`: the chart of its bank
      items, their rounded totals, and the projection's end (the last
      point's balance, or the bank balance when there is no point) with its
      safety flag. */
  function Assemble(pending: seq<PendingRecurring>, today: int, monthEnd: int, bankBalance: int, ccLiability: int)
    : ForecastResult
  {
    var bank := BankOnly(pending);
    var points := Chart(bank, bankBalance, today, monthEnd);
    var projected := if |points| > 0 then points[|points| - 1].balance else bankBalance;
    ForecastResult(Round(bankBalance), projected, projected >= 0, ccLiability, Round(IncomeTotal(bank)),
                   Round(ExpenseTotal(bank)), points, pending)
  }

  /** When the bank items fall between today and the end of the month, the
      chart has a point for every day left in the month and ends on the bank
      balance plus the pending bank income less the pending bank expenses,
      rounded to whole shekels; the month is safe exactly when that end is
      not negative. */
  lemma AssembleEnd(pending: seq<PendingRecurring>, today: int, monthEnd: int, bankBalance: int, ccLiability: int)
    requires today < monthEnd
    requires forall x :: x in BankOnly(pending) ==> today <= x.expectedDate < monthEnd
    ensures var r := Assemble(pending, today, monthEnd, bankBalance, ccLiability);
      var bank := BankOnly(pending);
      && |r.dataPoints| == monthEnd - today
      && r.projectedEndOfMonth == Round(bankBalance + IncomeTotal(bank) - ExpenseTotal(bank))
      && (r.isSafe <==> r.projectedEndOfMonth >= 0)
  {
    EndOfMonth(BankOnly(pending), bankBalance, today, monthEnd);
  }

  /** The bank items among the pending ones fall between today and the end
      of the month. */
  lemma BankPendingInWindow(patterns: seq<ForecastPattern>, txs: seq<TxRow>, householdId: string,
                            monthStart: int, monthEnd: int, today: int)
    requires monthStart <= today < monthEnd
    ensures forall x :: x in BankOnly(PendingList(patterns, txs, householdId, monthStart, monthEnd, today)) ==>
      today <= x.expectedDate < monthEnd
  {
    PendingDatesInWindow(patterns, txs, householdId, monthStart, monthEnd, today);
    BankOnlyMembers(PendingList(patterns, txs, householdId, monthStart, monthEnd, today));
  }

  /** `calculateForecast`: the pending loop, the bank filter, the day loop
      and the totals. `bankBalance` and `ccLiability` are the totals of the
      balance calculations; `patterns` are the rows of the pattern query and
      `txs` the transaction table, of which the household's transactions of
      the month are read. */
  method CalculateForecast(householdId: string, today: int, monthStart: int, monthEnd: int, bankBalance: int,
                           ccLiability: int, patterns: seq<ForecastPattern>, txs: seq<TxRow>)
    returns (result: ForecastResult)
    ensures result == Assemble(PendingList(patterns, txs, householdId, monthStart, monthEnd, today), today, monthEnd,
                              bankBalance, ccLiability)
  {
    var pending := CollectPending(patterns, txs, householdId, monthStart, monthEnd, today);
    var bank := BankOnly(pending);
    var points := Project(bank, bankBalance, today, monthEnd);
    var income := IncomeTotal(bank);
    var expenses := ExpenseTotal(bank);
    var projected := if |points| > 0 then points[|points| - 1].balance else bankBalance;
    result := ForecastResult(Round(bankBalance), projected, projected >= 0, ccLiability, Round(income), Round(expenses),
                             points, pending);
  }

  /** A credit-card item never moves the line: adding one to the pending
      list leaves the bank items, and so every data point, as they were. */
  lemma CardItemsDoNotMoveTheLine(items: seq<PendingRecurring>, card: PendingRecurring)
    requires card.accountType == CreditCard
    ensures BankOnly(items + [card]) == BankOnly(items)
  {
    assert (items + [card])[..|items|] == items;
  }
}
