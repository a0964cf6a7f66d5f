/**
  * The SQLite store: four tables keyed by id, the save / get / list / delete
  * operations on each, the balance summaries computed from them (savings,
  * liquidity, net worth) and the two sweeps run when the dashboard opens
  * (overdue debts, due subscriptions). A table is a `map` from primary key
  * to row; `INSERT OR REPLACE` is a map update.
  */
module Store {
  import opened Wrappers
  import opened Text
  import opened Dates
  import opened Tables
  import opened Models

  function AccountKey(r: AccountRow): string { r.id }
  function TransactionKey(r: TransactionRow): string { r.id }
  function DebtKey(r: DebtRow): string { r.id }
  function SubscriptionKey(r: SubscriptionRow): string { r.id }
  function TransactionDate(r: TransactionRow): string { r.date }
  function DebtDueDate(r: DebtRow): string { r.dueDate }

  // ----- Object lists and the rows they render -----

  function AccountRows(xs: seq<Account>): (rs: seq<AccountRow>)
    reads set i | 0 <= i < |xs| :: xs[i]
    ensures |rs| == |xs| && forall i | 0 <= i < |xs| :: rs[i] == xs[i].ToDict()
  {
    if |xs| == 0 then [] else [xs[0].ToDict()] + AccountRows(xs[1..])
  }

  function TransactionRows(xs: seq<Transaction>): (rs: seq<TransactionRow>)
    reads set i | 0 <= i < |xs| :: xs[i]
    ensures |rs| == |xs| && forall i | 0 <= i < |xs| :: rs[i] == xs[i].ToDict()
  {
    if |xs| == 0 then [] else [xs[0].ToDict()] + TransactionRows(xs[1..])
  }

  function DebtRows(xs: seq<Debt>): (rs: seq<DebtRow>)
    reads set i | 0 <= i < |xs| :: xs[i]
    ensures |rs| == |xs| && forall i | 0 <= i < |xs| :: rs[i] == xs[i].ToDict()
  {
    if |xs| == 0 then [] else [xs[0].ToDict()] + DebtRows(xs[1..])
  }

  function SubscriptionRows(xs: seq<Subscription>): (rs: seq<SubscriptionRow>)
    reads set i | 0 <= i < |xs| :: xs[i]
    ensures |rs| == |xs| && forall i | 0 <= i < |xs| :: rs[i] == xs[i].ToDict()
  {
    if |xs| == 0 then [] else [xs[0].ToDict()] + SubscriptionRows(xs[1..])
  }

  lemma TransactionRowsAppend(xs: seq<Transaction>, x: Transaction)
    ensures TransactionRows(xs + [x]) == TransactionRows(xs) + [x.ToDict()]
  {
    assert forall i | 0 <= i < |xs| :: (xs + [x])[i] == xs[i];
  }

  // ----- Query filters -----

  /** The optional filters of `get_all_transactions`; dates are passed as ISO text. */
  datatype TransactionQuery = TransactionQuery(
    status: Option<string>, accountId: Option<string>, transactionType: Option<string>,
    startDate: Option<string>, endDate: Option<string>)

  const AllTransactions: TransactionQuery := TransactionQuery(None, None, None, None, None)

  /** The `WHERE` clause `get_all_transactions` builds: a filter applies only when its argument is truthy. */
  predicate MatchesTransaction(q: TransactionQuery, r: TransactionRow)
  {
    && (Truthy(q.status) ==> r.status == q.status.value)
    && (Truthy(q.accountId) ==> r.fromAccountId == q.accountId || r.toAccountId == q.accountId)
    && (Truthy(q.transactionType) ==> r.transactionType == q.transactionType.value)
    && (Truthy(q.startDate) ==> StrLe(q.startDate.value, r.date))
    && (Truthy(q.endDate) ==> StrLe(r.date, q.endDate.value))
  }

  function TransactionFilter(q: TransactionQuery): TransactionRow -> bool
  {
    (r: TransactionRow) => MatchesTransaction(q, r)
  }

  /** The filters of `get_all_debts`: a truthy status, and `is_receivable` unless it is `None`. */
  datatype DebtQuery = DebtQuery(status: Option<string>, isReceivable: Option<bool>)

  predicate MatchesDebt(q: DebtQuery, r: DebtRow)
  {
    && (Truthy(q.status) ==> r.status == q.status.value)
    && (q.isReceivable.Some? ==> r.isReceivable == Flag(q.isReceivable.value))
  }

  function DebtFilter(q: DebtQuery): DebtRow -> bool
  {
    (r: DebtRow) => MatchesDebt(q, r)
  }

  predicate MatchesSubscription(status: Option<string>, r: SubscriptionRow)
  {
    Truthy(status) ==> r.status == status.value
  }

  function SubscriptionFilter(status: Option<string>): SubscriptionRow -> bool
  {
    (r: SubscriptionRow) => MatchesSubscription(status, r)
  }

  /** The date of a row the store holds. */
  function DateOf(r: TransactionRow): Date
    requires CanonicalTransaction(r)
  {
    ParseIso(r.date).value
  }

  /** Comparing ISO date text, as the `date >= ?` and `date <= ?` filters do, is comparing the dates. */
  lemma {:induction false} DateFilterIsChronological(r: TransactionRow, start: Date, end: Date)
    requires CanonicalTransaction(r)
    ensures StrLe(IsoFormat(start), r.date) <==> OnOrBefore(start, DateOf(r))
    ensures StrLe(r.date, IsoFormat(end)) <==> OnOrBefore(DateOf(r), end)
  {
    FormatParsedIso(r.date);
    IsoOrder(start, DateOf(r));
    IsoOrder(DateOf(r), end);
  }

  /** `ORDER BY date DESC` over stored rows lists the transactions newest first. */
  lemma NewestFirst(rs: seq<TransactionRow>)
    requires forall i | 0 <= i < |rs| :: CanonicalTransaction(rs[i])
    requires SortedBy(rs, TransactionDate, true)
    ensures forall i, j | 0 <= i < j < |rs| :: OnOrBefore(DateOf(rs[j]), DateOf(rs[i]))
  {
    forall i, j | 0 <= i < j < |rs|
      ensures OnOrBefore(DateOf(rs[j]), DateOf(rs[i]))
    {
      FormatParsedIso(rs[i].date);
      FormatParsedIso(rs[j].date);
      IsoOrder(DateOf(rs[j]), DateOf(rs[i]));
    }
  }

  // ----- Savings statistics -----

  /**
    * A savings statistic: `{"total_balance": ..., "month_contribution": ...,
    * "savings_accounts": ...}`, the accounts given by their rows; `None` where
    * the dict has no `"savings_accounts"` key.
    */
  datatype SavingsStats = SavingsStats(totalBalance: int, monthContribution: int,
                                       savingsAccounts: Option<seq<AccountRow>>)

  predicate IsSavingsRow(a: AccountRow) { a.isSavings == 1 }
  function AccountBalance(a: AccountRow): int { a.balance }
  function TransactionAmount(t: TransactionRow): int { t.amount }

  /** `given or fallback`: an absent or zero argument falls back. */
  function OrElse(given: Option<int>, fallback: int): (r: int)
    ensures given.Some? && given.value != 0 ==> r == given.value
    ensures !(given.Some? && given.value != 0) ==> r == fallback
  {
    if given.Some? && given.value != 0 then given.value else fallback
  }

  /** `f"{year}-{month:02d}-01"`. */
  function MonthStart(year: int, month: int): string
  {
    FormatInt(year, 0) + "-" + FormatInt(month, 2) + "-01"
  }

  /** The first day of the following month, as `get_savings_stats` writes it. */
  function MonthEnd(year: int, month: int): string
  {
    if month == 12 then FormatInt(year + 1, 0) + "-01-01"
    else FormatInt(year, 0) + "-" + FormatInt(month + 1, 2) + "-01"
  }

  /** `date >= start AND date < end AND status = 'completed'`. */
  predicate InWindow(r: TransactionRow, start: string, end: string)
  {
    StrLe(start, r.date) && StrLt(r.date, end) && r.status == Completed
  }

  function DepositsTo(id: string, start: string, end: string): TransactionRow -> bool
  {
    (r: TransactionRow) => r.toAccountId == Some(id) && InWindow(r, start, end)
  }

  function WithdrawalsFrom(id: string, start: string, end: string): TransactionRow -> bool
  {
    (r: TransactionRow) => r.fromAccountId == Some(id) && InWindow(r, start, end)
  }

  /** What completed transactions in the window paid into the account, less what they took out. */
  ghost function NetFlow(transactions: map<string, TransactionRow>, id: string, start: string, end: string): int
  {
    SumMap(Where(transactions, DepositsTo(id, start, end)), TransactionAmount)
      - SumMap(Where(transactions, WithdrawalsFrom(id, start, end)), TransactionAmount)
  }

  ghost function NetFlowOf(transactions: map<string, TransactionRow>, start: string, end: string): AccountRow -> int
  {
    (a: AccountRow) => NetFlow(transactions, a.id, start, end)
  }

  ghost function SavingsTotal(accounts: map<string, AccountRow>): int
  {
    SumMap(Where(accounts, IsSavingsRow), AccountBalance)
  }

  ghost function MonthContribution(accounts: map<string, AccountRow>, transactions: map<string, TransactionRow>,
                                   start: string, end: string): int
  {
    SumMap(Where(accounts, IsSavingsRow), NetFlowOf(transactions, start, end))
  }

  /** Without a year padding argument, `str(year)` is the four ISO digits for the years 1000 to 9999. */
  lemma {:induction false} DigitsUnpadded(n: nat, w: nat)
    requires w == 0 || Pow10(w - 1) <= n
    ensures Digits(n, w) == Digits(n, 0)
    decreases w
  {
    if w >= 2 {
      DigitsUnpadded(n / 10, w - 1);
    }
  }

  /**
    * For years 1000 to 9998, the text window `get_savings_stats` builds holds
    * exactly the dates of that calendar month.
    */
  lemma {:induction false} MonthWindowIsTheMonth(r: TransactionRow, year: int, month: int)
    requires CanonicalTransaction(r) && 1000 <= year < 9999 && 1 <= month <= 12
    ensures StrLe(MonthStart(year, month), r.date) && StrLt(r.date, MonthEnd(year, month))
      <==> DateOf(r).year == year && DateOf(r).month == month
  {
    var d := DateOf(r);
    FormatParsedIso(r.date);
    var first: Date := Ymd(year, month, 1);
    var next: Date := if month == 12 then Ymd(year + 1, 1, 1) else Ymd(year, month + 1, 1);
    MonthBoundsAreIso(year, month);
    IsoOrder(first, d);
    IsoOrder(d, next);
  }

  /** The two bounds of the window are the ISO forms of the first day of the month and of the next month. */
  lemma MonthBoundsAreIso(year: int, month: int)
    requires 1000 <= year < 9999 && 1 <= month <= 12
    ensures MonthStart(year, month) == IsoFormat(Ymd(year, month, 1))
    ensures MonthEnd(year, month) == IsoFormat(if month == 12 then Ymd(year + 1, 1, 1) else Ymd(year, month + 1, 1))
  {
    assert Pow10(3) == 1000;
    DigitsUnpadded(year, 4);
    DigitsUnpadded(year + 1, 4);
  }

  // ----- Liquidity -----

  /** What one account adds to `get_liquidity()`. */
  function LiquidityOf(a: AccountRow): int
  {
    if a.accountType == DebitAccount then (if a.balance > 0 then a.balance else 0)
    else if a.accountType == SavingsAccount then a.balance
    else if a.accountType == CreditAccount then Available(a.accountType, a.balance, a.creditLimit)
    else 0
  }

  ghost function Liquidity(accounts: map<string, AccountRow>): int
  {
    SumMap(accounts, LiquidityOf)
  }

  /** While every account keeps its floor, liquidity is never negative. */
  lemma LiquidityNonNegative(accounts: map<string, AccountRow>)
    requires forall k | k in accounts :: WithinFloor(accounts[k].accountType, accounts[k].balance, accounts[k].creditLimit)
    ensures Liquidity(accounts) >= 0
  {
    SumMapNonNegative(accounts, LiquidityOf);
  }

  /**
    * What a credit or savings account adds to liquidity is exactly the largest
    * amount it will let be withdrawn; a debit account adds its balance when positive.
    */
  lemma LiquidityIsSpendable(a: AccountRow, amount: int)
    ensures a.accountType == CreditAccount || a.accountType == SavingsAccount ==>
      (WithdrawFrom(a, amount).Some? <==> amount <= LiquidityOf(a))
    ensures a.accountType == DebitAccount ==> LiquidityOf(a) >= 0 && LiquidityOf(a) >= a.balance
  {
  }

  // ----- Net worth -----

  /** `{"assets": ..., "liabilities": ..., "net_worth": ...}`. */
  datatype NetWorth = NetWorth(assets: int, liabilities: int, netWorth: int)

  /** `abs(balance)` of a credit account in debt, else nothing. */
  function CreditDebt(a: AccountRow): int
  {
    if a.accountType == CreditAccount && a.balance < 0 then -a.balance else 0
  }

  function DebtAmount(d: DebtRow): int { d.amount }
  function SubscriptionAmount(s: SubscriptionRow): int { s.amount }

  const PendingReceivables: DebtQuery := DebtQuery(Some(Pending), Some(true))
  const PendingPayables: DebtQuery := DebtQuery(Some(Pending), Some(false))

  /** `status = 'active' AND next_payment_date <= horizon`. */
  function UpcomingBy(horizon: string): SubscriptionRow -> bool
  {
    (s: SubscriptionRow) => s.status == Active && StrLe(s.nextPaymentDate, horizon)
  }

  ghost function Assets(accounts: map<string, AccountRow>, debts: map<string, DebtRow>): int
  {
    SumMap(accounts, AccountBalance) + SumMap(Where(debts, DebtFilter(PendingReceivables)), DebtAmount)
  }

  ghost function Liabilities(accounts: map<string, AccountRow>, debts: map<string, DebtRow>,
                             subscriptions: map<string, SubscriptionRow>, horizon: string): int
  {
    SumMap(accounts, CreditDebt)
      + SumMap(Where(debts, DebtFilter(PendingPayables)), DebtAmount)
      + SumMap(Where(subscriptions, UpcomingBy(horizon)), SubscriptionAmount)
  }

  /** `net_worth` as `get_net_worth` computes it. */
  ghost function NetWorthOf(accounts: map<string, AccountRow>, debts: map<string, DebtRow>,
                            subscriptions: map<string, SubscriptionRow>, horizon: string): int
  {
    Assets(accounts, debts) - Liabilities(accounts, debts, subscriptions, horizon)
  }

  /**
    * A credit account in debt is counted twice: its negative balance already
    * lowers the assets and its absolute value is added to the liabilities
    * again, so opening a credit account at balance `b < 0` lowers net worth by `2 * |b|`.
    */
  lemma CreditDebtCountedTwice(accounts: map<string, AccountRow>, debts: map<string, DebtRow>,
                               subscriptions: map<string, SubscriptionRow>, horizon: string, a: AccountRow)
    requires a.id !in accounts && a.accountType == CreditAccount && a.balance < 0
    ensures NetWorthOf(accounts[a.id := a], debts, subscriptions, horizon)
         == NetWorthOf(accounts, debts, subscriptions, horizon) + 2 * a.balance
  {
    SumMapUpdate(accounts, AccountBalance, a.id, a);
    SumMapUpdate(accounts, CreditDebt, a.id, a);
  }

  /** The balance an account adds to net worth when each debt is counted once, as a liability. */
  function AssetBalance(a: AccountRow): int
  {
    a.balance + CreditDebt(a)
  }

  /** Net worth with a credit account's debt counted once, under liabilities. */
  ghost function IntendedNetWorth(accounts: map<string, AccountRow>, debts: map<string, DebtRow>,
                                  subscriptions: map<string, SubscriptionRow>, horizon: string): int
  {
    SumMap(accounts, AssetBalance) + SumMap(Where(debts, DebtFilter(PendingReceivables)), DebtAmount)
      - Liabilities(accounts, debts, subscriptions, horizon)
  }

  /** Every account balance, negative or not, enters the intended net worth exactly once. */
  lemma IntendedNetWorthCountsOnce(accounts: map<string, AccountRow>, debts: map<string, DebtRow>,
                                   subscriptions: map<string, SubscriptionRow>, horizon: string, a: AccountRow)
    requires a.id !in accounts
    ensures IntendedNetWorth(accounts[a.id := a], debts, subscriptions, horizon)
         == IntendedNetWorth(accounts, debts, subscriptions, horizon) + a.balance
  {
    SumMapUpdate(accounts, AssetBalance, a.id, a);
    SumMapUpdate(accounts, CreditDebt, a.id, a);
  }

  // ----- Overdue debts -----

  /** `due_date < today AND status = 'pending'`. */
  function OverdueOn(today: string): DebtRow -> bool
  {
    (d: DebtRow) => StrLt(d.dueDate, today) && d.status == Pending
  }

  /** `UPDATE debts SET status = 'overdue' WHERE ...`. */
  function MarkOverdue(debts: map<string, DebtRow>, today: string): (r: map<string, DebtRow>)
    ensures r.Keys == debts.Keys
  {
    map k | k in debts :: if OverdueOn(today)(debts[k]) then debts[k].(status := Overdue) else debts[k]
  }

  /** A stored debt is swept as overdue exactly when it is pending and its due date is strictly before today. */
  lemma OverdueMeansPastDue(d: DebtRow, today: Date)
    requires CanonicalDebt(d)
    ensures OverdueOn(IsoFormat(today))(d) <==> d.status == Pending && Before(ParseIso(d.dueDate).value, today)
  {
    FormatParsedIso(d.dueDate);
    IsoOrder(ParseIso(d.dueDate).value, today);
  }

  /** Running the sweep again on the same day changes nothing and counts nothing. */
  lemma OverdueSweepIdempotent(debts: map<string, DebtRow>, today: string)
    ensures MarkOverdue(MarkOverdue(debts, today), today) == MarkOverdue(debts, today)
    ensures Where(MarkOverdue(debts, today), OverdueOn(today)) == map[]
  {
    var once := MarkOverdue(debts, today);
    assert forall k | k in once :: !OverdueOn(today)(once[k]);
  }

  // ----- Due subscriptions -----

  /** `status = 'active' AND next_payment_date <= today`: the rows the sweep selects. */
  function DueOn(today: string): SubscriptionRow -> bool
  {
    (s: SubscriptionRow) => s.status == Active && StrLe(s.nextPaymentDate, today)
  }

  /** The selected rows that actually produce a bill: those with a linked account. */
  predicate Billable(s: SubscriptionRow, today: string)
  {
    DueOn(today)(s) && Truthy(s.linkedAccountId)
  }

  /** The stored row after `calculate_next_payment_date(True)`. */
  function Advanced(s: SubscriptionRow): SubscriptionRow
    requires CanonicalSubscription(s)
    requires IsDate(NextPaymentDate(ParseIso(s.nextPaymentDate).value, s.frequency))
  {
    s.(nextPaymentDate := IsoFormat(NextPaymentDate(ParseIso(s.nextPaymentDate).value, s.frequency)))
  }

  /** A subscription the sweep bills moves strictly later, by exactly one billing period. */
  lemma SweepMovesLater(s: SubscriptionRow)
    requires CanonicalSubscription(s)
    requires IsDate(NextPaymentDate(ParseIso(s.nextPaymentDate).value, s.frequency))
    ensures StrLt(s.nextPaymentDate, Advanced(s).nextPaymentDate)
    ensures ParseIso(Advanced(s).nextPaymentDate) == Some(NextPaymentDate(ParseIso(s.nextPaymentDate).value, s.frequency))
  {
    var d := ParseIso(s.nextPaymentDate).value;
    var n: Date := NextPaymentDate(d, s.frequency);
    FormatParsedIso(s.nextPaymentDate);
    IsoOrder(d, n);
    ParseIsoFormat(n);
  }

  /** The subscriptions the sweep bills. */
  function BillableKeys(subscriptions: map<string, SubscriptionRow>, today: string): (r: set<string>)
    ensures forall k :: k in r <==> k in subscriptions && Billable(subscriptions[k], today)
  {
    set k | k in subscriptions && Billable(subscriptions[k], today)
  }

  /** The ids the sweep gives its new bills: one per billable subscription, all distinct. */
  predicate BillIdsCover(subscriptions: map<string, SubscriptionRow>, today: string, billIds: map<string, Id>)
  {
    BillableKeys(subscriptions, today) <= billIds.Keys && Injective(billIds)
  }

  /** ... and none of them is already a transaction's id. */
  predicate FreshBillIds(subscriptions: map<string, SubscriptionRow>, transactions: map<string, TransactionRow>,
                         today: string, billIds: map<string, Id>)
  {
    BillIdsCover(subscriptions, today, billIds)
      && forall k | k in BillableKeys(subscriptions, today) :: billIds[k] !in transactions
  }

  /** Every billable subscription's next date can move one period on without leaving the years 1 to 9999. */
  predicate CanAdvance(subscriptions: map<string, SubscriptionRow>, today: string)
  {
    forall k | k in subscriptions && Billable(subscriptions[k], today) ::
      CanonicalSubscription(subscriptions[k])
      && IsDate(NextPaymentDate(ParseIso(subscriptions[k].nextPaymentDate).value, subscriptions[k].frequency))
  }

  /** Each billable subscription's row with its next payment date moved on. */
  function AdvancedRows(subscriptions: map<string, SubscriptionRow>, today: string): (r: map<string, SubscriptionRow>)
    requires CanAdvance(subscriptions, today)
    ensures r.Keys == BillableKeys(subscriptions, today)
  {
    map k | k in BillableKeys(subscriptions, today) :: Advanced(subscriptions[k])
  }

  /** The bill each billable subscription produces, keyed by the subscription. */
  function BillsBySubscription(subscriptions: map<string, SubscriptionRow>, today: string, billIds: map<string, Id>)
    : (r: map<string, TransactionRow>)
    requires BillIdsCover(subscriptions, today, billIds)
    ensures r.Keys == BillableKeys(subscriptions, today)
    ensures forall k | k in r :: TransactionKey(r[k]) == billIds[k]
  {
    map k | k in BillableKeys(subscriptions, today) :: Bill(subscriptions[k], billIds[k]).value
  }

  /** Every bill the sweep writes, keyed by its own id. */
  function AllBills(subscriptions: map<string, SubscriptionRow>, today: string, billIds: map<string, Id>)
    : map<string, TransactionRow>
    requires BillIdsCover(subscriptions, today, billIds)
  {
    Rekeyed(BillableKeys(subscriptions, today), billIds, BillsBySubscription(subscriptions, today, billIds))
  }

  /**
    * The sweep writes exactly one pending bill per billable subscription, for its
    * amount and out of its linked account, and nothing for any other subscription.
    */
  lemma AllBillsAreTheDueOnes(subscriptions: map<string, SubscriptionRow>, today: string, billIds: map<string, Id>)
    requires BillIdsCover(subscriptions, today, billIds)
    ensures forall k | k in subscriptions && Billable(subscriptions[k], today) ::
      billIds[k] in AllBills(subscriptions, today, billIds)
      && AllBills(subscriptions, today, billIds)[billIds[k]] == Bill(subscriptions[k], billIds[k]).value
    ensures forall x | x in AllBills(subscriptions, today, billIds) ::
      exists k | k in subscriptions && Billable(subscriptions[k], today) :: billIds[k] == x
  {
    var bills := AllBills(subscriptions, today, billIds);
    forall x | x in bills
      ensures exists k | k in subscriptions && Billable(subscriptions[k], today) :: billIds[k] == x
    {
      var k :| k in BillableKeys(subscriptions, today) && billIds[k] == x;
    }
  }

  /**
    * What the sweep will do with one selected row: it is due, and if it is
    * billable its advanced row is `adv[row.id]` and its bill `bills[row.id]`.
    */
  predicate RowPlan(row: SubscriptionRow, today: string, billIds: map<string, Id>, billable: set<string>,
                    adv: map<string, SubscriptionRow>, bills: map<string, TransactionRow>)
  {
    && CanonicalSubscription(row) && DueOn(today)(row)
    && (row.id in billable <==> Billable(row, today))
    && (row.id in billable ==>
         && row.id in billIds && row.id in adv && row.id in bills
         && IsDate(NextPaymentDate(ParseIso(row.nextPaymentDate).value, row.frequency))
         && adv[row.id] == Advanced(row)
         && bills[row.id] == Bill(row, billIds[row.id]).value)
  }

  /** `RowPlan` for every row of a selection, stated one row at a time. */
  predicate Planned(rows: seq<SubscriptionRow>, today: string, billIds: map<string, Id>, billable: set<string>,
                    adv: map<string, SubscriptionRow>, bills: map<string, TransactionRow>)
    decreases |rows|
  {
    |rows| == 0 || (RowPlan(rows[0], today, billIds, billable, adv, bills) && Planned(rows[1..], today, billIds, billable, adv, bills))
  }

  lemma {:induction false} PlannedAt(rows: seq<SubscriptionRow>, today: string, billIds: map<string, Id>, billable: set<string>,
                                     adv: map<string, SubscriptionRow>, bills: map<string, TransactionRow>, i: int)
    requires Planned(rows, today, billIds, billable, adv, bills) && 0 <= i < |rows|
    ensures RowPlan(rows[i], today, billIds, billable, adv, bills)
    decreases i
  {
    if i > 0 {
      PlannedAt(rows[1..], today, billIds, billable, adv, bills, i - 1);
      assert rows[1..][i - 1] == rows[i];
    }
  }

  /** The rows the sweep selects from `subscriptions` are planned by its billable keys, advanced rows and bills. */
  lemma {:induction false} PlanOfSelection(rows: seq<SubscriptionRow>, subscriptions: map<string, SubscriptionRow>, today: string,
                                           billIds: map<string, Id>)
    requires CanAdvance(subscriptions, today) && BillIdsCover(subscriptions, today, billIds)
    requires forall i | 0 <= i < |rows| ::
      rows[i].id in subscriptions && subscriptions[rows[i].id] == rows[i] && DueOn(today)(rows[i])
      && CanonicalSubscription(rows[i])
    ensures Planned(rows, today, billIds, BillableKeys(subscriptions, today), AdvancedRows(subscriptions, today),
                    BillsBySubscription(subscriptions, today, billIds))
    decreases |rows|
  {
    if |rows| > 0 {
      PlanOfSelection(rows[1..], subscriptions, today, billIds);
    }
  }

  /** The subscription and transaction tables, and the bills the sweep has returned so far. */
  datatype Sweep = Sweep(subscriptions: map<string, SubscriptionRow>, transactions: map<string, TransactionRow>,
                         bills: seq<TransactionRow>)

  /**
    * One pass of the sweep's loop for the selected row `row`, where `adv` and
    * `bills` hold the advanced row and the bill of each row to bill, and
    * `billIds` the bills' ids: a row to bill gets its bill saved and returned,
    * and its advanced row saved; any other row leaves everything as it is.
    */
  function SweepPass(st: Sweep, row: SubscriptionRow, billIds: map<string, Id>,
                     adv: map<string, SubscriptionRow>, bills: map<string, TransactionRow>): Sweep
  {
    if row.id in adv && row.id in bills && row.id in billIds then
      Sweep(st.subscriptions[row.id := adv[row.id]], st.transactions[billIds[row.id] := bills[row.id]],
            st.bills + [bills[row.id]])
    else st
  }

  /** The sweep's loop over the selected rows `rows`, in order, starting from `st`. */
  function SweepRows(rows: seq<SubscriptionRow>, st: Sweep, billIds: map<string, Id>,
                     adv: map<string, SubscriptionRow>, bills: map<string, TransactionRow>): Sweep
    decreases |rows|
  {
    if |rows| == 0 then st
    else SweepPass(SweepRows(rows[..|rows| - 1], st, billIds, adv, bills), rows[|rows| - 1], billIds, adv, bills)
  }

  /**
    * What one pass of the sweep does to the tables and to the list of bills,
    * stated on the rows to bill (`billable`), their advanced rows (`adv`) and
    * their bills (`bills`): handling `k` adds its entry, if it has one.
    */
  lemma SweepStep(subs0: map<string, SubscriptionRow>, txs0: map<string, TransactionRow>, billable: set<string>,
                  adv: map<string, SubscriptionRow>, bills: map<string, TransactionRow>, billIds: map<string, Id>,
                  done: set<string>, k: string, billed: seq<TransactionRow>)
    requires adv.Keys == billable && bills.Keys == billable && billable <= billIds.Keys && Injective(billIds)
    requires k !in done && (k in billable ==> TransactionKey(bills[k]) == billIds[k])
    requires forall j | j in billable :: billIds[j] !in txs0
    requires Lists(billed, Rekeyed(billable * done, billIds, bills), TransactionKey)
    ensures k in billable ==>
      && (subs0 + Restrict(adv, done))[k := adv[k]] == subs0 + Restrict(adv, done + {k})
      && billIds[k] !in txs0 + Rekeyed(billable * done, billIds, bills)
      && (txs0 + Rekeyed(billable * done, billIds, bills))[billIds[k] := bills[k]]
         == txs0 + Rekeyed(billable * (done + {k}), billIds, bills)
      && Lists(billed + [bills[k]], Rekeyed(billable * (done + {k}), billIds, bills), TransactionKey)
    ensures k !in billable ==>
      && subs0 + Restrict(adv, done) == subs0 + Restrict(adv, done + {k})
      && Rekeyed(billable * done, billIds, bills) == Rekeyed(billable * (done + {k}), billIds, bills)
  {
    RestrictInsert(subs0, adv, done, k);
    var before := Rekeyed(billable * done, billIds, bills);
    if k in billable {
      assert billable * (done + {k}) == billable * done + {k};
      RekeyedInsert(billable * done, billIds, bills, k);
      UnionUpdate(txs0, before, billIds[k], bills[k]);
      ListsAppend(billed, before, TransactionKey, bills[k]);
    } else {
      assert billable * (done + {k}) == billable * done;
    }
  }

  /** Handling one more row of the selection is one more pass. */
  lemma SweepRowsSnoc(rows: seq<SubscriptionRow>, i: int, st: Sweep, billIds: map<string, Id>,
                      adv: map<string, SubscriptionRow>, bills: map<string, TransactionRow>)
    requires 0 <= i < |rows|
    ensures SweepRows(rows[..i + 1], st, billIds, adv, bills)
            == SweepPass(SweepRows(rows[..i], st, billIds, adv, bills), rows[i], billIds, adv, bills)
  {
    assert rows[..i + 1][..i] == rows[..i];
  }

  /**
    * After the first `i` selected rows the loop has written the advanced rows
    * and the bills of exactly those of them it bills, and returned each such
    * bill once.
    */
  predicate SweptUpTo(rows: seq<SubscriptionRow>, subs0: map<string, SubscriptionRow>, txs0: map<string, TransactionRow>,
                      billable: set<string>, adv: map<string, SubscriptionRow>, bills: map<string, TransactionRow>,
                      billIds: map<string, Id>, i: int)
    requires billable <= billIds.Keys && bills.Keys == billable && Injective(billIds) && 0 <= i <= |rows|
  {
    var st := SweepRows(rows[..i], Sweep(subs0, txs0, []), billIds, adv, bills);
    var done := IdsOf(rows[..i], SubscriptionKey);
    && st.subscriptions == subs0 + Restrict(adv, done)
    && st.transactions == txs0 + Rekeyed(billable * done, billIds, bills)
    && Lists(st.bills, Rekeyed(billable * done, billIds, bills), TransactionKey)
  }

  /** The requirements the sweep's plan meets: one advanced row and one fresh bill id per row to bill. */
  predicate PlanFits(rows: seq<SubscriptionRow>, txs0: map<string, TransactionRow>, billable: set<string>,
                     adv: map<string, SubscriptionRow>, bills: map<string, TransactionRow>, billIds: map<string, Id>)
  {
    && adv.Keys == billable && bills.Keys == billable && billable <= billIds.Keys && Injective(billIds)
    && (forall k | k in billable :: TransactionKey(bills[k]) == billIds[k] && billIds[k] !in txs0)
    && (forall a, b | 0 <= a < b < |rows| :: SubscriptionKey(rows[a]) != SubscriptionKey(rows[b]))
  }

  lemma {:induction false} SweepRowsPrefix(rows: seq<SubscriptionRow>, subs0: map<string, SubscriptionRow>,
                                           txs0: map<string, TransactionRow>, billable: set<string>,
                                           adv: map<string, SubscriptionRow>, bills: map<string, TransactionRow>,
                                           billIds: map<string, Id>, i: int)
    requires PlanFits(rows, txs0, billable, adv, bills, billIds) && 0 <= i <= |rows|
    ensures SweptUpTo(rows, subs0, txs0, billable, adv, bills, billIds, i)
    decreases i
  {
    if i == 0 {
      SweepRowsNone(rows, subs0, txs0, billable, adv, bills, billIds);
    } else {
      SweepRowsPrefix(rows, subs0, txs0, billable, adv, bills, billIds, i - 1);
      var st := SweepRows(rows[..i - 1], Sweep(subs0, txs0, []), billIds, adv, bills);
      var done := IdsOf(rows[..i - 1], SubscriptionKey);
      assert Lists(st.bills, Rekeyed(billable * done, billIds, bills), TransactionKey);
      var row := rows[i - 1];
      assert rows[..i][..i - 1] == rows[..i - 1];
      assert IdsOf(rows[..i], SubscriptionKey) == done + {row.id};
      assert row.id !in done;
      SweepStep(subs0, txs0, billable, adv, bills, billIds, done, row.id, st.bills);
      var st' := SweepRows(rows[..i], Sweep(subs0, txs0, []), billIds, adv, bills);
      assert st' == SweepPass(st, row, billIds, adv, bills);
      if row.id in billable {
        assert st'.subscriptions == st.subscriptions[row.id := adv[row.id]];
        assert st'.transactions == st.transactions[billIds[row.id] := bills[row.id]];
        assert st'.bills == st.bills + [bills[row.id]];
      } else {
        assert st' == st;
      }
    }
  }

  /** Before the first row the sweep has written and returned nothing. */
  lemma SweepRowsNone(rows: seq<SubscriptionRow>, subs0: map<string, SubscriptionRow>,
                      txs0: map<string, TransactionRow>, billable: set<string>,
                      adv: map<string, SubscriptionRow>, bills: map<string, TransactionRow>,
                      billIds: map<string, Id>)
    requires billable <= billIds.Keys && bills.Keys == billable && Injective(billIds)
    ensures SweptUpTo(rows, subs0, txs0, billable, adv, bills, billIds, 0)
  {
    assert rows[..0] == [];
    assert IdsOf(rows[..0], SubscriptionKey) == {} && billable * {} == {};
    NoKeys(subs0, adv, billIds, bills);
    NoKeys(txs0, txs0, billIds, bills);
  }

  /**
    * The sweep over the rows `get` selects (active and due by today) writes one
    * advanced row and one bill per billable subscription, and returns exactly
    * those bills, each once.
    */
  lemma SweepOfSelection(rows: seq<SubscriptionRow>, subs0: map<string, SubscriptionRow>,
                         txs0: map<string, TransactionRow>, today: string, billIds: map<string, Id>)
    requires KeyedBy(subs0, SubscriptionKey) && forall k | k in subs0 :: CanonicalSubscription(subs0[k])
    requires Lists(rows, Where(subs0, DueOn(today)), SubscriptionKey)
    requires CanAdvance(subs0, today) && FreshBillIds(subs0, txs0, today, billIds)
    ensures Planned(rows, today, billIds, BillableKeys(subs0, today), AdvancedRows(subs0, today),
                    BillsBySubscription(subs0, today, billIds))
    ensures var st := SweepRows(rows, Sweep(subs0, txs0, []), billIds, AdvancedRows(subs0, today),
                                BillsBySubscription(subs0, today, billIds));
      && st.subscriptions == subs0 + AdvancedRows(subs0, today)
      && st.transactions == txs0 + AllBills(subs0, today, billIds)
      && Lists(st.bills, AllBills(subs0, today, billIds), TransactionKey)
  {
    var billable := BillableKeys(subs0, today);
    var adv := AdvancedRows(subs0, today);
    var bills := BillsBySubscription(subs0, today, billIds);
    forall j | 0 <= j < |rows|
      ensures rows[j].id in subs0 && subs0[rows[j].id] == rows[j] && DueOn(today)(rows[j])
              && CanonicalSubscription(rows[j])
    {
      assert rows[j].id in Where(subs0, DueOn(today));
    }
    PlanOfSelection(rows, subs0, today, billIds);
    SweepRowsPrefix(rows, subs0, txs0, billable, adv, bills, billIds, |rows|);
    assert rows[..|rows|] == rows;
    var done := IdsOf(rows, SubscriptionKey);
    forall k | k in billable
      ensures k in done
    {
      assert subs0[k] in rows;
      var j :| 0 <= j < |rows| && rows[j] == subs0[k];
    }
    IntersectCovering(billable, done);
    RestrictCovering(adv, done);
  }

  /** The four tables of a ledger: every row sits under its own id and is a row `to_dict()` could have written. */
  predicate TablesValid(accounts: map<string, AccountRow>, transactions: map<string, TransactionRow>,
                        debts: map<string, DebtRow>, subscriptions: map<string, SubscriptionRow>)
  {
    && KeyedBy(accounts, AccountKey) && (forall k | k in accounts :: CanonicalAccount(accounts[k]))
    && KeyedBy(transactions, TransactionKey) && (forall k | k in transactions :: CanonicalTransaction(transactions[k]))
    && KeyedBy(debts, DebtKey) && (forall k | k in debts :: CanonicalDebt(debts[k]))
    && KeyedBy(subscriptions, SubscriptionKey) && (forall k | k in subscriptions :: CanonicalSubscription(subscriptions[k]))
  }

  /** The overdue sweep changes only statuses, so the table stays keyed by id and every row stays canonical. */
  lemma MarkOverdueKeepsValid(accounts: map<string, AccountRow>, transactions: map<string, TransactionRow>,
                               debts: map<string, DebtRow>, subscriptions: map<string, SubscriptionRow>, today: string)
    requires TablesValid(accounts, transactions, debts, subscriptions)
    ensures TablesValid(accounts, transactions, MarkOverdue(debts, today), subscriptions)
  {
  }

  class Database {
    var accounts: map<string, AccountRow>
    var transactions: map<string, TransactionRow>
    var debts: map<string, DebtRow>
    var subscriptions: map<string, SubscriptionRow>

    /** Every row sits under its own id and is a row `to_dict()` could have written. */
    ghost predicate Valid()
      reads this
    {
      TablesValid(accounts, transactions, debts, subscriptions)
    }

    /** A new database file: `_create_tables()` leaves four empty tables. */
    constructor ()
      ensures Valid()
      ensures accounts == map[] && transactions == map[] && debts == map[] && subscriptions == map[]
    {
      accounts := map[];
      transactions := map[];
      debts := map[];
      subscriptions := map[];
    }

    // ----- Accounts -----

    method SaveAccount(a: Account) returns (id: Id)
      requires Valid()
      modifies this
      ensures Valid() && id == a.id
      ensures accounts == old(accounts)[a.id := a.ToDict()]
      ensures transactions == old(transactions) && debts == old(debts) && subscriptions == old(subscriptions)
    {
      accounts := accounts[a.id := a.ToDict()];
      id := a.id;
    }

    method GetAccount(id: string) returns (a: Account?)
      requires Valid()
      ensures a == null <==> id !in accounts
      ensures a != null ==> fresh(a) && a.ToDict() == accounts[id]
    {
      if id !in accounts {
        return null;
      }
      var row := accounts[id];
      var rowId: Id := row.id;
      ReadAccountCanonical(row, rowId);
      a := Account.FromDict(row, rowId);
    }

    method GetAllAccounts() returns (all: seq<Account>)
      requires Valid()
      ensures Lists(AccountRows(all), accounts, AccountKey)
      ensures forall i | 0 <= i < |all| :: fresh(all[i])
    {
      var rows := ListAll(accounts, AccountKey);
      all := [];
      for i := 0 to |rows|
        invariant |all| == i
        invariant forall j | 0 <= j < i :: fresh(all[j]) && all[j].ToDict() == rows[j]
      {
        var rowId: Id := rows[i].id;
        ReadAccountCanonical(rows[i], rowId);
        var a := Account.FromDict(rows[i], rowId);
        all := all + [a];
      }
      assert AccountRows(all) == rows;
    }

    method DeleteAccount(id: string) returns (deleted: bool)
      requires Valid()
      modifies this
      ensures Valid() && deleted == (id in old(accounts))
      ensures accounts == old(accounts) - {id}
      ensures transactions == old(transactions) && debts == old(debts) && subscriptions == old(subscriptions)
    {
      deleted := id in accounts;
      accounts := accounts - {id};
    }

    // ----- Transactions -----

    method SaveTransaction(t: Transaction) returns (id: Id)
      requires Valid()
      modifies this
      ensures Valid() && id == t.id
      ensures transactions == old(transactions)[t.id := t.ToDict()]
      ensures accounts == old(accounts) && debts == old(debts) && subscriptions == old(subscriptions)
    {
      t.DictIsCanonical();
      transactions := transactions[t.id := t.ToDict()];
      id := t.id;
    }

    method GetTransaction(id: string) returns (t: Transaction?)
      requires Valid()
      ensures t == null <==> id !in transactions
      ensures t != null ==> fresh(t) && t.ToDict() == transactions[id]
    {
      if id !in transactions {
        return null;
      }
      t := LoadTransaction(transactions[id]);
    }

    /** `Transaction.from_dict` on a stored row, which never raises. */
    static method LoadTransaction(row: TransactionRow) returns (t: Transaction)
      requires CanonicalTransaction(row)
      ensures fresh(t) && t.ToDict() == row
    {
      var rowId: Id := row.id;
      // A stored date is never empty, so the `date.today()` fallback is not consulted.
      var fallback: Date := ParseIso(row.date).value;
      ReadTransactionCanonical(row, fallback, rowId);
      var r := Transaction.FromDict(row, fallback, rowId);
      t := r;
    }

    static method LoadTransactions(rows: seq<TransactionRow>) returns (all: seq<Transaction>)
      requires forall i | 0 <= i < |rows| :: CanonicalTransaction(rows[i])
      ensures TransactionRows(all) == rows
      ensures forall i | 0 <= i < |all| :: fresh(all[i])
    {
      all := [];
      for i := 0 to |rows|
        invariant |all| == i
        invariant forall j | 0 <= j < i :: fresh(all[j]) && all[j].ToDict() == rows[j]
      {
        var t := LoadTransaction(rows[i]);
        all := all + [t];
      }
    }

    /** `get_all_transactions(...)`: the matching transactions, each once, `ORDER BY date DESC`. */
    method GetAllTransactions(q: TransactionQuery) returns (all: seq<Transaction>)
      requires Valid()
      ensures Lists(TransactionRows(all), Where(transactions, TransactionFilter(q)), TransactionKey)
      ensures SortedBy(TransactionRows(all), TransactionDate, true)
      ensures forall i | 0 <= i < |all| :: fresh(all[i])
    {
      var rows := SelectOrdered(transactions, TransactionFilter(q), TransactionKey, TransactionDate, true);
      all := LoadTransactions(rows);
    }

    method DeleteTransaction(id: string) returns (deleted: bool)
      requires Valid()
      modifies this
      ensures Valid() && deleted == (id in old(transactions))
      ensures transactions == old(transactions) - {id}
      ensures accounts == old(accounts) && debts == old(debts) && subscriptions == old(subscriptions)
    {
      deleted := id in transactions;
      transactions := transactions - {id};
    }

    // ----- Debts -----

    method SaveDebt(d: Debt) returns (id: Id)
      requires Valid()
      modifies this
      ensures Valid() && id == d.id
      ensures debts == old(debts)[d.id := d.ToDict()]
      ensures accounts == old(accounts) && transactions == old(transactions) && subscriptions == old(subscriptions)
    {
      d.DictIsCanonical();
      debts := debts[d.id := d.ToDict()];
      id := d.id;
    }

    static method LoadDebt(row: DebtRow) returns (d: Debt)
      requires CanonicalDebt(row)
      ensures fresh(d) && d.ToDict() == row
    {
      var rowId: Id := row.id;
      var fallback: Date := ParseIso(row.dueDate).value;
      ReadDebtCanonical(row, fallback, rowId);
      var r := Debt.FromDict(row, fallback, rowId);
      d := r;
    }

    static method LoadDebts(rows: seq<DebtRow>) returns (all: seq<Debt>)
      requires forall i | 0 <= i < |rows| :: CanonicalDebt(rows[i])
      ensures DebtRows(all) == rows
      ensures forall i | 0 <= i < |all| :: fresh(all[i])
    {
      all := [];
      for i := 0 to |rows|
        invariant |all| == i
        invariant forall j | 0 <= j < i :: fresh(all[j]) && all[j].ToDict() == rows[j]
      {
        var d := LoadDebt(rows[i]);
        all := all + [d];
      }
    }

    method GetDebt(id: string) returns (d: Debt?)
      requires Valid()
      ensures d == null <==> id !in debts
      ensures d != null ==> fresh(d) && d.ToDict() == debts[id]
    {
      if id !in debts {
        return null;
      }
      d := LoadDebt(debts[id]);
    }

    /** `get_all_debts(...)`: the matching debts, each once, `ORDER BY due_date ASC`. */
    method GetAllDebts(q: DebtQuery) returns (all: seq<Debt>)
      requires Valid()
      ensures Lists(DebtRows(all), Where(debts, DebtFilter(q)), DebtKey)
      ensures SortedBy(DebtRows(all), DebtDueDate, false)
      ensures forall i | 0 <= i < |all| :: fresh(all[i])
    {
      var rows := SelectOrdered(debts, DebtFilter(q), DebtKey, DebtDueDate, false);
      all := LoadDebts(rows);
    }

    method DeleteDebt(id: string) returns (deleted: bool)
      requires Valid()
      modifies this
      ensures Valid() && deleted == (id in old(debts))
      ensures debts == old(debts) - {id}
      ensures accounts == old(accounts) && transactions == old(transactions) && subscriptions == old(subscriptions)
    {
      deleted := id in debts;
      debts := debts - {id};
    }

    // ----- Subscriptions -----

    method SaveSubscription(s: Subscription) returns (id: Id)
      requires Valid()
      modifies this
      ensures Valid() && id == s.id
      ensures subscriptions == old(subscriptions)[s.id := s.ToDict()]
      ensures accounts == old(accounts) && transactions == old(transactions) && debts == old(debts)
    {
      s.DictIsCanonical();
      subscriptions := subscriptions[s.id := s.ToDict()];
      id := s.id;
    }

    static method LoadSubscription(row: SubscriptionRow) returns (s: Subscription)
      requires CanonicalSubscription(row)
      ensures fresh(s) && s.ToDict() == row
    {
      var rowId: Id := row.id;
      var fallback: Date := ParseIso(row.nextPaymentDate).value;
      ReadSubscriptionCanonical(row, fallback, rowId);
      var r := Subscription.FromDict(row, fallback, rowId);
      s := r;
    }

    static method LoadSubscriptions(rows: seq<SubscriptionRow>) returns (all: seq<Subscription>)
      requires forall i | 0 <= i < |rows| :: CanonicalSubscription(rows[i])
      ensures SubscriptionRows(all) == rows
      ensures forall i | 0 <= i < |all| :: fresh(all[i])
    {
      all := [];
      for i := 0 to |rows|
        invariant |all| == i
        invariant forall j | 0 <= j < i :: fresh(all[j]) && all[j].ToDict() == rows[j]
      {
        var s := LoadSubscription(rows[i]);
        all := all + [s];
      }
    }

    method GetSubscription(id: string) returns (s: Subscription?)
      requires Valid()
      ensures s == null <==> id !in subscriptions
      ensures s != null ==> fresh(s) && s.ToDict() == subscriptions[id]
    {
      if id !in subscriptions {
        return null;
      }
      s := LoadSubscription(subscriptions[id]);
    }

    /** `get_all_subscriptions(status)`: the matching subscriptions, each once, in no particular order. */
    method GetAllSubscriptions(status: Option<string>) returns (all: seq<Subscription>)
      requires Valid()
      ensures Lists(SubscriptionRows(all), Where(subscriptions, SubscriptionFilter(status)), SubscriptionKey)
      ensures forall i | 0 <= i < |all| :: fresh(all[i])
    {
      var rows := ListWhere(subscriptions, SubscriptionFilter(status), SubscriptionKey);
      all := LoadSubscriptions(rows);
    }

    method DeleteSubscription(id: string) returns (deleted: bool)
      requires Valid()
      modifies this
      ensures Valid() && deleted == (id in old(subscriptions))
      ensures subscriptions == old(subscriptions) - {id}
      ensures accounts == old(accounts) && transactions == old(transactions) && debts == old(debts)
    {
      deleted := id in subscriptions;
      subscriptions := subscriptions - {id};
    }

    // ----- Summaries -----

    /**
      * `get_savings_stats(month, year)`: the balance of the accounts flagged as
      * savings, what completed transactions moved into them, net, during the month,
      * and those accounts; with no savings account, zeros and no list.
      */
    method GetSavingsStats(month: Option<int>, year: Option<int>, today: Date) returns (stats: SavingsStats)
      requires Valid()
      ensures var m, y := OrElse(month, today.month), OrElse(year, today.year);
        && stats.totalBalance == SavingsTotal(accounts)
        && stats.monthContribution == MonthContribution(accounts, transactions, MonthStart(y, m), MonthEnd(y, m))
      ensures stats.savingsAccounts.None? <==> Where(accounts, IsSavingsRow) == map[]
      ensures stats.savingsAccounts.Some? ==> Lists(stats.savingsAccounts.value, Where(accounts, IsSavingsRow), AccountKey)
    {
      var m := OrElse(month, today.month);
      var y := OrElse(year, today.year);
      var savings := ListWhere(accounts, IsSavingsRow, AccountKey);
      var start, end := MonthStart(y, m), MonthEnd(y, m);
      SumOfListing(savings, Where(accounts, IsSavingsRow), AccountKey, AccountBalance);
      SumOfListing(savings, Where(accounts, IsSavingsRow), AccountKey, NetFlowOf(transactions, start, end));
      ListingLength(savings, Where(accounts, IsSavingsRow), AccountKey);
      if |savings| == 0 {
        return SavingsStats(0, 0, None);
      }
      var total := SavingsBalance(savings);
      var contribution := SavingsContribution(savings, start, end);
      stats := SavingsStats(total, contribution, Some(savings));
    }

    /** The first loop of `get_savings_stats`: `total_balance += get_account(id).balance`. */
    method SavingsBalance(savings: seq<AccountRow>) returns (total: int)
      requires Valid()
      requires forall i | 0 <= i < |savings| :: savings[i].id in accounts && accounts[savings[i].id] == savings[i]
      ensures total == SumSeq(savings, AccountBalance)
    {
      total := 0;
      for i := 0 to |savings|
        invariant total == SumSeq(savings[..i], AccountBalance)
      {
        var a := GetAccount(savings[i].id);
        total := total + a.balance;
        SumSeqPrefix(savings, i, AccountBalance);
      }
      assert savings[..|savings|] == savings;
    }

    /** The second loop of `get_savings_stats`: completed deposits minus completed withdrawals, per account. */
    method SavingsContribution(savings: seq<AccountRow>, start: string, end: string) returns (contribution: int)
      ensures contribution == SumSeq(savings, NetFlowOf(transactions, start, end))
    {
      ghost var flow := NetFlowOf(transactions, start, end);
      contribution := 0;
      for i := 0 to |savings|
        invariant contribution == SumSeq(savings[..i], flow)
      {
        var deposits := SumWhere(transactions, DepositsTo(savings[i].id, start, end), TransactionAmount);
        var withdrawals := SumWhere(transactions, WithdrawalsFrom(savings[i].id, start, end), TransactionAmount);
        contribution := contribution + (deposits - withdrawals);
        SumSeqPrefix(savings, i, flow);
      }
      assert savings[..|savings|] == savings;
    }

    /** `get_liquidity()`: positive debit balances, savings balances and available credit. */
    method GetLiquidity() returns (liquidity: int)
      requires Valid()
      ensures liquidity == Liquidity(accounts)
    {
      var all := GetAllAccounts();
      liquidity := SumLiquidity(all);
      SumOfListing(AccountRows(all), accounts, AccountKey, LiquidityOf);
    }

    /** The loop of `get_liquidity()` over a list of accounts. */
    static method SumLiquidity(all: seq<Account>) returns (liquidity: int)
      ensures liquidity == SumSeq(AccountRows(all), LiquidityOf)
    {
      ghost var rows := AccountRows(all);
      liquidity := 0;
      for i := 0 to |all|
        invariant liquidity == SumSeq(rows[..i], LiquidityOf)
      {
        var a := all[i];
        assert rows[i] == a.ToDict();
        if a.accountType == DebitAccount {
          liquidity := liquidity + (if a.balance > 0 then a.balance else 0);
        } else if a.accountType == SavingsAccount {
          liquidity := liquidity + a.balance;
        } else if a.accountType == CreditAccount {
          liquidity := liquidity + a.AvailableBalance();
        }
        SumSeqPrefix(rows, i, LiquidityOf);
      }
      assert rows[..|all|] == rows;
    }

    /** `for account in accounts: assets += account.balance`. */
    static method SumBalances(all: seq<Account>) returns (total: int)
      ensures total == SumSeq(AccountRows(all), AccountBalance)
    {
      ghost var rows := AccountRows(all);
      total := 0;
      for i := 0 to |all|
        invariant total == SumSeq(rows[..i], AccountBalance)
      {
        assert rows[i] == all[i].ToDict();
        total := total + all[i].balance;
        SumSeqPrefix(rows, i, AccountBalance);
      }
      assert rows[..|all|] == rows;
    }

    /** `liabilities += abs(account.balance)` for each credit account in debt. */
    static method SumCreditDebts(all: seq<Account>) returns (total: int)
      ensures total == SumSeq(AccountRows(all), CreditDebt)
    {
      ghost var rows := AccountRows(all);
      total := 0;
      for i := 0 to |all|
        invariant total == SumSeq(rows[..i], CreditDebt)
      {
        var a := all[i];
        assert rows[i] == a.ToDict();
        if a.accountType == CreditAccount && a.balance < 0 {
          total := total + -a.balance;
        }
        SumSeqPrefix(rows, i, CreditDebt);
      }
      assert rows[..|all|] == rows;
    }

    /** `for debt in debts: total += debt.amount`. */
    static method SumDebts(all: seq<Debt>) returns (total: int)
      ensures total == SumSeq(DebtRows(all), DebtAmount)
    {
      ghost var rows := DebtRows(all);
      total := 0;
      for i := 0 to |all|
        invariant total == SumSeq(rows[..i], DebtAmount)
      {
        total := total + all[i].amount;
        SumSeqPrefix(rows, i, DebtAmount);
      }
      assert rows[..|all|] == rows;
    }

    /** The amount of the pending debts `get_all_debts` lists for `q`. */
    method DebtTotal(q: DebtQuery) returns (total: int)
      requires Valid()
      ensures total == SumMap(Where(debts, DebtFilter(q)), DebtAmount)
    {
      var found := GetAllDebts(q);
      total := SumDebts(found);
      SumOfListing(DebtRows(found), Where(debts, DebtFilter(q)), DebtKey, DebtAmount);
    }

    /**
      * `get_net_worth()`: assets are every balance plus pending receivables;
      * liabilities are credit debt, pending payables and the active
      * subscriptions due within 30 days of `today`.
      */
    method GetNetWorth(today: Date) returns (w: NetWorth)
      requires Valid() && IsDate(AddDays(today, 30))
      ensures var horizon := IsoFormat(AddDays(today, 30));
        && w.assets == Assets(accounts, debts)
        && w.liabilities == Liabilities(accounts, debts, subscriptions, horizon)
        && w.netWorth == NetWorthOf(accounts, debts, subscriptions, horizon)
    {
      var all := GetAllAccounts();
      var assets := NetWorthAssets(all);
      var thirtyDays: Date := AddDays(today, 30);
      var liabilities := NetWorthLiabilities(all, thirtyDays);
      w := NetWorth(assets, liabilities, assets - liabilities);
    }

    /** The assets half of `get_net_worth()`, over the listed accounts `all`. */
    method NetWorthAssets(all: seq<Account>) returns (assets: int)
      requires Valid() && Lists(AccountRows(all), accounts, AccountKey)
      ensures assets == Assets(accounts, debts)
    {
      var balances := SumBalances(all);
      SumOfListing(AccountRows(all), accounts, AccountKey, AccountBalance);
      var receivables := DebtTotal(PendingReceivables);
      assets := balances + receivables;
    }

    /** The liabilities half of `get_net_worth()`, over the listed accounts `all`, up to `thirtyDays`. */
    method NetWorthLiabilities(all: seq<Account>, thirtyDays: Date) returns (liabilities: int)
      requires Valid() && Lists(AccountRows(all), accounts, AccountKey)
      ensures liabilities == Liabilities(accounts, debts, subscriptions, IsoFormat(thirtyDays))
    {
      var creditDebt := SumCreditDebts(all);
      SumOfListing(AccountRows(all), accounts, AccountKey, CreditDebt);
      var payables := DebtTotal(PendingPayables);
      var upcoming := SumWhere(subscriptions, UpcomingBy(IsoFormat(thirtyDays)), SubscriptionAmount);
      liabilities := creditDebt + payables + upcoming;
    }

    // ----- Sweeps -----

    /** `check_and_update_overdue_debts()`: marks pending debts due before today as overdue and counts them. */
    method CheckAndUpdateOverdueDebts(today: Date) returns (count: nat)
      requires Valid()
      modifies this
      ensures Valid()
      ensures debts == MarkOverdue(old(debts), IsoFormat(today))
      ensures count == |Where(old(debts), OverdueOn(IsoFormat(today)))|
      ensures accounts == old(accounts) && transactions == old(transactions) && subscriptions == old(subscriptions)
    {
      var iso := IsoFormat(today);
      count := |Where(debts, OverdueOn(iso))|;
      MarkOverdueKeepsValid(accounts, transactions, debts, subscriptions, iso);
      debts := MarkOverdue(debts, iso);
    }

    /**
      * `generate_pending_subscription_transactions()`: every active subscription
      * due by today with a linked account gets a pending bill, and its next
      * payment date moves one period on; the new bills are returned.
      * `billIds[k]` is the fresh id the bill for subscription `k` receives.
      */
    method GeneratePendingSubscriptionTransactions(today: Date, billIds: map<string, Id>) returns (generated: seq<Transaction>)
      requires Valid()
      requires FreshBillIds(subscriptions, transactions, IsoFormat(today), billIds)
      requires CanAdvance(subscriptions, IsoFormat(today))
      modifies this
      ensures Valid()
      ensures subscriptions == old(subscriptions) + AdvancedRows(old(subscriptions), IsoFormat(today))
      ensures transactions == old(transactions) + AllBills(old(subscriptions), IsoFormat(today), billIds)
      ensures Lists(TransactionRows(generated), AllBills(old(subscriptions), IsoFormat(today), billIds), TransactionKey)
      ensures forall i | 0 <= i < |generated| :: fresh(generated[i])
      ensures accounts == old(accounts) && debts == old(debts)
    {
      var iso := IsoFormat(today);
      var due := ListWhere(subscriptions, DueOn(iso), SubscriptionKey);
      ghost var adv := AdvancedRows(subscriptions, iso);
      ghost var bills := BillsBySubscription(subscriptions, iso, billIds);
      SweepOfSelection(due, subscriptions, transactions, iso, billIds);
      generated := SweepLoop(due, iso, billIds, BillableKeys(subscriptions, iso), adv, bills);
    }

    /**
      * The loop of the sweep over the selected rows `due`, in order; `adv` and
      * `bills` hold what it writes for each row it bills.
      */
    method SweepLoop(due: seq<SubscriptionRow>, today: string, billIds: map<string, Id>, ghost billable: set<string>,
                     ghost adv: map<string, SubscriptionRow>, ghost bills: map<string, TransactionRow>)
      returns (generated: seq<Transaction>)
      requires Valid() && adv.Keys == billable && bills.Keys == billable
      requires Planned(due, today, billIds, billable, adv, bills)
      modifies this
      ensures Valid() && accounts == old(accounts) && debts == old(debts)
      ensures SweepRows(due, Sweep(old(subscriptions), old(transactions), []), billIds, adv, bills)
              == Sweep(subscriptions, transactions, TransactionRows(generated))
      ensures forall i | 0 <= i < |generated| :: fresh(generated[i])
    {
      ghost var st0 := Sweep(subscriptions, transactions, []);
      ghost var st := st0;
      generated := [];
      for i := 0 to |due|
        invariant Valid() && accounts == old(accounts) && debts == old(debts)
        invariant st == SweepRows(due[..i], st0, billIds, adv, bills)
        invariant subscriptions == st.subscriptions && transactions == st.transactions
        invariant |generated| == |st.bills|
        invariant forall j | 0 <= j < |generated| :: fresh(generated[j]) && generated[j].ToDict() == st.bills[j]
      {
        SweepRowsSnoc(due, i, st0, billIds, adv, bills);
        generated := SweepOne(due, i, today, billIds, billable, adv, bills, st, generated);
        st := SweepPass(st, due[i], billIds, adv, bills);
      }
      assert due[..|due|] == due;
      assert TransactionRows(generated) == st.bills;
    }

    /**
      * One pass of the sweep's loop: `from_dict` on the selected row `due[i]`,
      * then the pass itself, appending the bill, if any, to `generated`.
      */
    method SweepOne(due: seq<SubscriptionRow>, i: int, today: string, billIds: map<string, Id>, ghost billable: set<string>,
                    ghost adv: map<string, SubscriptionRow>, ghost bills: map<string, TransactionRow>,
                    ghost st: Sweep, generated: seq<Transaction>)
      returns (generated': seq<Transaction>)
      requires Valid() && adv.Keys == billable && bills.Keys == billable
      requires Planned(due, today, billIds, billable, adv, bills) && 0 <= i < |due|
      requires subscriptions == st.subscriptions && transactions == st.transactions
      requires |generated| == |st.bills| && forall j | 0 <= j < |generated| :: generated[j].ToDict() == st.bills[j]
      modifies this
      ensures Valid() && accounts == old(accounts) && debts == old(debts)
      ensures var st' := SweepPass(st, due[i], billIds, adv, bills);
        && subscriptions == st'.subscriptions && transactions == st'.transactions
        && |generated'| == |st'.bills| && forall j | 0 <= j < |generated'| :: generated'[j].ToDict() == st'.bills[j]
      ensures |generated| <= |generated'| && generated'[..|generated|] == generated
      ensures forall j | |generated| <= j < |generated'| :: fresh(generated'[j])
    {
      var row := due[i];
      PlannedAt(due, today, billIds, billable, adv, bills, i);
      var s := LoadSubscription(row);
      var billId := if row.id in billIds then billIds[row.id] else row.id;
      var t := BillAndAdvance(s, today, billId, row);
      if t != null {
        generated' := generated + [t];
      } else {
        generated' := generated;
      }
    }

    /** The body of the sweep's loop for one selected subscription `s`, whose stored row is `row`. */
    method BillAndAdvance(s: Subscription, today: string, billId: Id, ghost row: SubscriptionRow) returns (t: Transaction?)
      requires Valid() && s.ToDict() == row && CanonicalSubscription(row) && DueOn(today)(row)
      requires Billable(row, today) ==> IsDate(NextPaymentDate(ParseIso(row.nextPaymentDate).value, row.frequency))
      modifies this, s
      ensures Valid()
      ensures t != null <==> Billable(row, today)
      ensures t != null ==> fresh(t) && t.ToDict() == Bill(row, billId).value && t.ToDict().id == billId
      ensures t != null ==> (subscriptions == old(subscriptions)[row.id := Advanced(row)]
                             && transactions == old(transactions)[billId := Bill(row, billId).value])
      ensures t == null ==> subscriptions == old(subscriptions) && transactions == old(transactions)
      ensures accounts == old(accounts) && debts == old(debts)
    {
      t := s.GeneratePendingTransaction(billId);
      if t != null {
        var _ := SaveTransaction(t);
        ParseIsoFormat(s.nextPaymentDate);
        var _ := s.CalculateNextPaymentDate(true);
        var _ := SaveSubscription(s);
      }
    }
  }
}
