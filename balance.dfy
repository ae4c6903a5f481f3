/** Balances: each bank account's balance from its starting balance and its
    transactions, and each credit card's liability for its current billing
    cycle. Amounts are agorot, dates day numbers. */
module Balance {
  import opened Common
  import opened Calendar
  import opened Db

  datatype AccountBalance = AccountBalance(accountId: string, accountName: string, balance: int)
  datatype BankBalanceResult = BankBalanceResult(totalBalance: int, accounts: seq<AccountBalance>)
  datatype CardLiability = CardLiability(accountId: string, accountName: string, liability: nat)
  datatype CCLiabilityResult = CCLiabilityResult(totalLiability: int, accounts: seq<CardLiability>)

  // ---------------------------------------------------------------------
  // Bank balance

  /** `SUM(CASE WHEN type = t THEN amount ELSE 0 END)` over the account's rows. */
  function TotalOf(txs: seq<TxRow>, accountId: string, t: TxType): int {
    if txs == [] then 0
    else
      var last := txs[|txs| - 1];
      TotalOf(txs[..|txs| - 1], accountId, t) + (if last.accountId == accountId && last.txType == t then last.amount else 0)
  }

  /** The formula of `calculateBankBalance`: starting balance plus income
      minus expenses minus transfers. */
  function BalanceOf(account: AccountRow, accountId: string, txs: seq<TxRow>): int {
    account.startingBalance + TotalOf(txs, accountId, Income) - TotalOf(txs, accountId, Expense)
      - TotalOf(txs, accountId, Transfer)
  }

  /** What one transaction does to its account's balance: income adds, the
      other two types subtract. */
  function Signed(tx: TxRow): int {
    if tx.txType == Income then tx.amount else -tx.amount
  }

  /** The running balance, one transaction at a time: a reference definition
      of the same quantity. */
  function Running(start: int, txs: seq<TxRow>, accountId: string): int {
    if txs == [] then start
    else
      var last := txs[|txs| - 1];
      Running(start, txs[..|txs| - 1], accountId) + (if last.accountId == accountId then Signed(last) else 0)
  }

  /** The three-sum formula is the running balance of the account's transactions. */
  lemma {:induction false} BalanceIsRunning(account: AccountRow, accountId: string, txs: seq<TxRow>)
    ensures BalanceOf(account, accountId, txs) == Running(account.startingBalance, txs, accountId)
  {
    if txs != [] {
      BalanceIsRunning(account, accountId, txs[..|txs| - 1]);
    }
  }

  /** Transactions of other accounts do not count: an account without
      transactions has its starting balance. */
  lemma {:induction false} NoTransactionsNoChange(account: AccountRow, accountId: string, txs: seq<TxRow>)
    requires forall i :: 0 <= i < |txs| ==> txs[i].accountId != accountId
    ensures BalanceOf(account, accountId, txs) == account.startingBalance
  {
    BalanceIsRunning(account, accountId, txs);
    RunningUnchanged(account.startingBalance, txs, accountId);
  }

  lemma {:induction false} RunningUnchanged(start: int, txs: seq<TxRow>, accountId: string)
    requires forall i :: 0 <= i < |txs| ==> txs[i].accountId != accountId
    ensures Running(start, txs, accountId) == start
  {
    if txs != [] {
      RunningUnchanged(start, txs[..|txs| - 1], accountId);
    }
  }

  /** The household's bank accounts, in the order the query returns them. */
  function BankAccounts(householdId: string, accounts: seq<(string, AccountRow)>): (r: seq<(string, AccountRow)>)
    ensures forall i :: 0 <= i < |r| ==> r[i] in accounts && r[i].1.householdId == householdId && r[i].1.accountType == Bank
    ensures forall i :: 0 <= i < |accounts| ==>
      (accounts[i].1.householdId == householdId && accounts[i].1.accountType == Bank ==> accounts[i] in r)
  {
    if accounts == [] then []
    else
      var init := BankAccounts(householdId, accounts[..|accounts| - 1]);
      var last := accounts[|accounts| - 1];
      assert forall i :: 0 <= i < |accounts| - 1 ==> accounts[i] == accounts[..|accounts| - 1][i];
      if last.1.householdId == householdId && last.1.accountType == Bank then init + [last] else init
  }

  function SumBalances(xs: seq<AccountBalance>): int {
    if xs == [] then 0 else SumBalances(xs[..|xs| - 1]) + xs[|xs| - 1].balance
  }

  /** `calculateBankBalance`: one entry per bank account of the household,
      in query order, each with its formula balance; the total is their sum. */
  function CalculateBankBalance(householdId: string, accounts: seq<(string, AccountRow)>, txs: seq<TxRow>)
    : (r: BankBalanceResult)
    ensures var banks := BankAccounts(householdId, accounts);
      |r.accounts| == |banks|
      && (forall i :: 0 <= i < |banks| ==>
            r.accounts[i] == AccountBalance(banks[i].0, banks[i].1.name, Running(banks[i].1.startingBalance, txs, banks[i].0)))
      && r.totalBalance == SumBalances(r.accounts)
  {
    var banks := BankAccounts(householdId, accounts);
    var rows := seq(|banks|, i requires 0 <= i < |banks| => AccountBalance(banks[i].0, banks[i].1.name, BalanceOf(banks[i].1, banks[i].0, txs)));
    forall i | 0 <= i < |banks|
      ensures rows[i].balance == Running(banks[i].1.startingBalance, txs, banks[i].0)
    {
      BalanceIsRunning(banks[i].1, banks[i].0, txs);
    }
    BankBalanceResult(SumBalances(rows), rows)
  }

  // ---------------------------------------------------------------------
  // Credit-card billing cycle

  /** `getBillingCycleBounds` for the month `month` of `year` whose bounds
      are `monthStart` and `monthEnd`: the calendar month when there is no
      billing day, otherwise from day `billingDay + 1` of this month to day
      `billingDay + 1` of the next, both normalised as `new Date` does. */
  function BillingCycleBounds(billingDay: Option<int>, year: int, month: int, monthStart: int, monthEnd: int)
    : (r: (int, int))
    requires 0 <= month < 12
    ensures billingDay.None? ==> r == (monthStart, monthEnd)
    ensures billingDay.Some? ==> r.0 == MonthStart(year, month) + billingDay.value
    ensures billingDay.Some? ==> r.1 - r.0 == DaysInMonth(year, month)
  {
    match billingDay
    case None => (monthStart, monthEnd)
    case Some(day) =>
      CycleLength(year, month);
      FirstOfMonthInYear(year, month);
      (MakeDay(year, month, day + 1), MakeDay(year, month + 1, day + 1))
  }

  /** The 1st of the next month is the length of this month away. */
  lemma CycleLength(year: int, month: int)
    requires 0 <= month < 12
    ensures FirstOfMonth(year, month + 1) - FirstOfMonth(year, month) == DaysInMonth(year, month)
  {
    assert month / 12 == 0 && month % 12 == month;
    NextMonthStart(year, month);
  }

  /** The example of the source: billing day 2 in February 2026 gives the
      cycle from February 3 up to March 3. */
  lemma BillingCycleExample()
    ensures BillingCycleBounds(Some(2), 2026, 1, MonthStart(2026, 1), MonthStart(2026, 2))
      == (MakeDay(2026, 1, 3), MakeDay(2026, 2, 3))
  {
  }

  // ---------------------------------------------------------------------
  // Credit-card liability

  /** A credit-card account as the liability query reads it. */
  datatype CardAccount = CardAccount(id: string, name: string, billingDay: Option<int>)

  /** `COALESCE(processedDate, date)`. */
  function BillingDate(tx: TxRow): int {
    tx.processedDate.GetOr(tx.date)
  }

  /** The sum of the card's expenses billed in `[cycleStart, cycleEnd)`. */
  function CycleExpenses(txs: seq<TxRow>, accountId: string, cycleStart: int, cycleEnd: int): int {
    if txs == [] then 0
    else
      var last := txs[|txs| - 1];
      CycleExpenses(txs[..|txs| - 1], accountId, cycleStart, cycleEnd)
        + (if last.accountId == accountId && last.txType == Expense && cycleStart <= BillingDate(last) < cycleEnd
           then last.amount else 0)
  }

  /** A card's liability: the absolute value of its cycle's expenses. */
  function LiabilityOf(card: CardAccount, txs: seq<TxRow>, year: int, month: int, monthStart: int, monthEnd: int)
    : (r: CardLiability)
    requires 0 <= month < 12
    ensures r.accountId == card.id && r.accountName == card.name
    ensures var b := BillingCycleBounds(card.billingDay, year, month, monthStart, monthEnd);
      r.liability as int == Abs(CycleExpenses(txs, card.id, b.0, b.1))
  {
    var b := BillingCycleBounds(card.billingDay, year, month, monthStart, monthEnd);
    CardLiability(card.id, card.name, Abs(CycleExpenses(txs, card.id, b.0, b.1)))
  }

  function SumLiabilities(xs: seq<CardLiability>): int {
    if xs == [] then 0 else SumLiabilities(xs[..|xs| - 1]) + xs[|xs| - 1].liability
  }

  /** Liabilities are never negative, so neither is their total. */
  lemma {:induction false} SumLiabilitiesNonNegative(xs: seq<CardLiability>)
    ensures SumLiabilities(xs) >= 0
  {
    if xs != [] {
      SumLiabilitiesNonNegative(xs[..|xs| - 1]);
    }
  }

  /** `calculateCCLiability`: one entry per credit card of the household, in
      query order, each with the liability of its own billing cycle; the
      total is their sum and is never negative. `cards` are the household's
      credit-card accounts as the first query returns them. */
  method CalculateCCLiability(cards: seq<CardAccount>, txs: seq<TxRow>, year: int, month: int, monthStart: int, monthEnd: int)
    returns (result: CCLiabilityResult)
    requires 0 <= month < 12
    ensures |result.accounts| == |cards|
    ensures forall i :: 0 <= i < |cards| ==> result.accounts[i] == LiabilityOf(cards[i], txs, year, month, monthStart, monthEnd)
    ensures result.totalLiability == SumLiabilities(result.accounts) && result.totalLiability >= 0
    ensures cards == [] ==> result == CCLiabilityResult(0, [])
  {
    if |cards| == 0 {
      return CCLiabilityResult(0, []);
    }
    var accounts: seq<CardLiability> := [];
    for i := 0 to |cards|
      invariant |accounts| == i
      invariant forall k :: 0 <= k < i ==> accounts[k] == LiabilityOf(cards[k], txs, year, month, monthStart, monthEnd)
    {
      var bounds := BillingCycleBounds(cards[i].billingDay, year, month, monthStart, monthEnd);
      var liability := Abs(CycleExpenses(txs, cards[i].id, bounds.0, bounds.1));
      accounts := accounts + [CardLiability(cards[i].id, cards[i].name, liability)];
    }
    SumLiabilitiesNonNegative(accounts);
    result := CCLiabilityResult(SumLiabilities(accounts), accounts);
  }
}
