# Flet-finance ledger core, modelled in Dafny

Flet-finance is a personal finance tracker. Its core keeps four kinds of record:
- accounts: debit, credit and savings, each with a balance and a credit limit;
- transactions: transfers, spendings, incomes and adjustments, each pending or completed;
- debts, payable or receivable;
- recurring subscriptions.

Everything is stored in four SQLite tables. On top of the tables the core computes:
- savings statistics per month;
- liquidity and net worth;
- an overdue sweep over debts;
- a billing sweep over subscriptions;
- the dashboard series: liquidity and net-worth trends over the last days, and monthly savings.

The model keeps that structure:

- `Wrappers`: `Option`.
- `Text`: SQLite's comparison of text and Python's decimal formatting. `StrLe` is comparison of code points, and `Digits` / `FormatInt` give `str(n)` and `f"{n:02d}"`.
- `Dates`: `datetime.date` in its range, years 1 to 9999.
  - `NextDay`, `PrevDay` and `DaysBefore` give `timedelta` arithmetic.
  - `AddMonths` / `AddYears` give the month arithmetic of `calculate_next_payment_date`.
  - `IsoFormat` / `ParseIso` give `isoformat()` / `strptime(..., "%Y-%m-%d")`.
  - Lemmas tie the order of ISO text to calendar order.
- `Tables`: helpers for tables keyed by id.
  - `Where` is a `WHERE` clause and `SumMap` a `SUM`.
  - `Lists(rows, table, key)` says a list of rows is exactly the table's rows, each once.
  - `SortStable` is Python's stable `list.sort`.
- `Models`: the classes `Account`, `Transaction`, `Debt` and `Subscription`.
  - Their methods update the objects in place.
  - Each class has `ToDict` (into the row the store keeps) and `FromDict` (back from a row).
  - The rules those methods follow are functions on rows: `Withdrawal`, `ExecuteOn`, `Settlement`, `Bill`, `NextPaymentDate`. The methods are proved against them.
- `Store`: the class `Database`. It holds the four tables as maps from id to row and has the operations of `db.py`.
- `Dashboard`: the class `DashboardDataProvider`, with the trend and savings series of `dashboard_data.py`.
  - Each series is stated as a function of the tables.
  - The methods, with their loops, are proved to compute it.
- `Workflows`: two UI handlers that combine the core.
  - Approving a pending transaction: fetch it, execute it against the accounts, save the accounts it names, then save it.
  - Reconciling an account to a reported balance: reconcile it, record an adjustment transaction, then save.

Money is an integer: the smallest currency unit. The following become parameters:
- `uuid4()`, as a `freshId` that is never empty;
- `date.today()` / `datetime.now()`, as `today`.

## Model

| member | source | states |
|---|---|---|
| Models.IdOr | models.py:12 | an object's id is the given id when it is non-empty, otherwise the fresh one; never empty |
| Models.Withdrawal | models.py:24-41 | a withdrawal succeeds exactly when the new balance stays within the account's floor: not below minus the credit limit for credit, not below zero for savings, always for debit; on success the balance drops by the amount |
| Models.Account.Withdraw | models.py:24-41 | returns whether the withdrawal went through; the balance drops by the amount exactly then, and is unchanged otherwise |
| Models.Account.Deposit | models.py:20-22 | the balance grows by the amount |
| Models.Available | models.py:43-50 | for credit and savings accounts the available balance is exactly the largest amount `withdraw` accepts; for a debit account it is the balance, or 0 when the balance is negative |
| Models.BalanceAfterKeepsFloor | models.py:20-41 | any sequence of non-negative deposits and arbitrary withdrawals keeps an account that starts within its floor within it |
| Models.Account.ReconcileBalance | models.py:52-57 | the balance becomes the reported one, and the returned adjustment is what takes the old balance there |
| Models.Account.ToDict | models.py:59-69 | the rendered row is canonical: it is what the store keeps |
| Models.Account.FromDict | models.py:71-82 | rebuilds an account whose row is the row read back with the defaults |
| Models.ReadAccountCanonical | models.py:59-82 | reading a row back gives the same row exactly when the row is canonical: from_dict after to_dict is the identity |
| Models.Transaction.FromDict | models.py:148-161 | fails exactly when the stored date text does not parse (the constructor's `strptime` raises, models.py:91); otherwise it rebuilds the row with its defaults |
| Models.ReadTransactionCanonical | models.py:134-161 | a transaction row reads back unchanged exactly when it is canonical |
| Models.Transaction.DictIsCanonical | models.py:134-146 | every rendered transaction row is canonical |
| Models.Transaction.Execute | models.py:100-132 | succeeds exactly when `ExecuteOn` does. Then the accounts' rows become its result and the status becomes completed. Otherwise nothing changes |
| Models.Transaction.TransferBetween | models.py:105-111 | a pending transfer between two stored accounts withdraws from the source and deposits into the destination, or does nothing if the withdrawal is refused |
| Models.Transaction.SpendFrom | models.py:113-117 | a pending spending withdraws from its account, or does nothing if refused |
| Models.Transaction.PayInto | models.py:119-124 | a pending income into a stored account always succeeds and deposits into it |
| Models.ExecuteImpact | models.py:100-132 | a successful execution moves the sum of all balances by exactly the transaction's impact: 0 for a transfer or an adjustment, -amount for a spending, +amount for an income |
| Models.ExecuteFrame | models.py:100-132 | a successful execution keeps the set of accounts, changes only balances, and leaves every account the transaction does not name untouched |
| Models.ExecuteOnce | models.py:102-103 | a transaction, once executed, is completed and executing it again fails |
| Models.ExecuteKeepsFloors | models.py:100-132 | with a non-negative amount, an execution keeps every account within its floor |
| Models.Debt.FromDict | models.py:224-236 | fails exactly when the due date does not parse; otherwise it rebuilds the row |
| Models.ReadDebtCanonical | models.py:211-236 | a debt row reads back unchanged exactly when it is canonical |
| Models.Debt.DictIsCanonical | models.py:211-222 | every rendered debt row is canonical |
| Models.Settlement | models.py:178-209 | there is none exactly for a paid debt or one without a truthy linked account. Otherwise it is a canonical pending row for the debt's full amount, dated on the given day: income into the linked account for a receivable, spending from it for a payable |
| Models.Debt.MarkAsPaid | models.py:178-209 | returns that settlement, dated on `transaction_date or today`. A paid debt, or one without a linked account, gets none. The debt becomes paid exactly when a transaction is returned |
| Models.SettlementExecutes | models.py:187-207 | executing a receivable's settlement deposits its amount into the linked account. A payable's settlement withdraws it, and succeeds exactly when the floor allows. The total balance moves by ± the amount |
| Models.Subscription.FromDict | models.py:303-315 | fails exactly when the next payment date does not parse; otherwise it rebuilds the row |
| Models.ReadSubscriptionCanonical | models.py:289-315 | a subscription row reads back unchanged exactly when it is canonical |
| Models.Subscription.DictIsCanonical | models.py:289-301 | every rendered subscription row is canonical |
| Models.Bill | models.py:254-269 | a bill exists exactly for an active subscription with a linked account. It is pending spending of the subscription's amount from that account, dated on the next payment date, with the subscription's category |
| Models.Subscription.GeneratePendingTransaction | models.py:254-269 | returns a new transaction exactly when `Bill` gives one, and its row is that bill |
| Models.BillExecutes | models.py:254-269 | an executed bill lowers the total balance by the subscription's amount |
| Models.NextPaymentDate | models.py:271-287 | the next date lies strictly later, exactly one period (1, 3 or 12 months; any other frequency counts as monthly) on, with the day clamped to the end of the month |
| Models.Subscription.CalculateNextPaymentDate | models.py:271-287 | after a payment the stored date moves on by one period; otherwise it stays; the date is returned |
| Models.MonthlyClampsToMonthEnd | models.py:276-284 | Jan 31 goes to Feb 29 in a leap year and to Feb 28 otherwise; Feb 29 one year on is Feb 28; Nov 30 a quarter on is Feb 28 |
| Models.MonthlyFromMidMonth | models.py:276-279 | Jan 15 goes to Feb 15 |
| Dates.AddMonthsSpec | models.py:276-284 | adding months moves the month index by exactly that many, clamping the day |
| Dates.AddYearsIsTwelveMonths | models.py:282-284 | `replace(year=year+1)` with the Feb 29 fallback is adding twelve months |
| Dates.ParseIsoFormat | models.py:134-161 | parsing a date's ISO text gives the date back |
| Dates.FormatParsedIso | models.py:149-161 | text that parses is the ISO text of its date |
| Dates.IsoOrder | db.py:186-196 | comparing two dates' ISO text as SQLite does is comparing the dates |
| Dates.DaysBeforeMonotone | dashboard_data.py:72-74 | going back more days gives a strictly earlier date |
| Text.DigitsOrder | db.py:352-356 | fixed-width decimal text compares as its values do |
| Text.DigitsOfValue | db.py:352-356 | fixed-width decimal text is the digits of its value |
| Store.Database.SaveAccount | db.py:96-107 | `INSERT OR REPLACE`: the row sits under the account's id and nothing else changes |
| Store.Database.GetAccount | db.py:109-119 | returns null exactly when the id is not stored, else an account whose row is the stored one |
| Store.Database.GetAllAccounts | db.py:121-129 | lists every stored account exactly once |
| Store.Database.DeleteAccount | db.py:131-136 | removes exactly that id and says whether it was there |
| Store.Database.SaveTransaction | db.py:139-151 | stores the transaction's row under its id; nothing else changes |
| Store.Database.GetTransaction | db.py:153-163 | null exactly when the id is absent, else the stored row |
| Store.Database.GetAllTransactions | db.py:165-206 | lists exactly the rows that meet every truthy filter, each once, ordered by date text descending |
| Store.DateFilterIsChronological | db.py:186-196 | the `date >= ?` and `date <= ?` text filters on stored rows are the calendar comparisons |
| Store.NewestFirst | db.py:201 | `ORDER BY date DESC` over stored rows puts later dates first |
| Store.Database.DeleteTransaction | db.py:208-213 | removes exactly that id |
| Store.Database.SaveDebt | db.py:216-228 | stores the debt's row under its id; nothing else changes |
| Store.Database.GetDebt | db.py:230-240 | null exactly when absent, else the stored row |
| Store.Database.GetAllDebts | db.py:242-267 | lists exactly the debts matching a truthy status and, unless `None`, the receivable flag, ordered by due date ascending |
| Store.Database.DeleteDebt | db.py:269-274 | removes exactly that id |
| Store.Database.SaveSubscription | db.py:277-289 | stores the subscription's row under its id; nothing else changes |
| Store.Database.GetSubscription | db.py:291-301 | null exactly when absent, else the stored row |
| Store.Database.GetAllSubscriptions | db.py:303-318 | lists exactly the subscriptions with the given status, when truthy |
| Store.Database.DeleteSubscription | db.py:320-325 | removes exactly that id |
| Store.OrElse | db.py:331-332 | `month or now.month`: an absent or zero argument falls back, any other is kept |
| Store.Database.GetSavingsStats | db.py:328-383 | the total is the sum of the savings accounts' balances. The contribution sums, over the savings accounts, completed deposits minus completed withdrawals dated in the text window of the month. The savings accounts are listed, each once; with no savings account there is no list and both sums are 0 |
| Store.MonthWindowIsTheMonth | db.py:352-377 | for years 1000 to 9998 that text window holds exactly the stored dates of that calendar month |
| Store.MonthBoundsAreIso | db.py:352-356 | the window's bounds are the ISO text of the first day of the month and of the next month |
| Store.Database.GetLiquidity | db.py:385-399 | the sum over accounts of positive debit balances, savings balances and credit available balances |
| Store.LiquidityIsSpendable | db.py:385-399 | what a credit or savings account adds to liquidity is exactly the largest amount it lets be withdrawn |
| Store.LiquidityNonNegative | db.py:385-399 | while every account keeps its floor, liquidity is never negative |
| Store.Database.GetNetWorth | db.py:401-439 | the assets are all balances plus pending receivables. The liabilities are credit debts, pending payables, and active subscriptions due within 30 days. Net worth is the difference |
| Store.CreditDebtCountedTwice | db.py:405-417 | adding a credit account with balance b < 0 lowers net worth by 2·\|b\|: the debt is counted in the assets and again in the liabilities |
| Store.IntendedNetWorthCountsOnce | db.py:405-417 | the corrected net worth (see Findings): with credit debt counted once, adding an account moves net worth by exactly its balance |
| Store.Database.CheckAndUpdateOverdueDebts | db.py:441-452 | exactly the pending debts due strictly before today become overdue, nothing else changes, and the count is their number |
| Store.OverdueMeansPastDue | db.py:447-448 | the text test `due_date < today` on a stored debt is the calendar test |
| Store.OverdueSweepIdempotent | db.py:441-452 | a second sweep on the same day changes nothing and counts nothing |
| Store.MarkOverdueKeepsValid | db.py:441-452 | the sweep keeps the tables keyed by id and their rows canonical |
| Store.Database.GeneratePendingSubscriptionTransactions | db.py:454-476 | every due, active, linked subscription gets one pending bill saved and returned, and its next date moved one period on; every other row is unchanged |
| Store.AllBillsAreTheDueOnes | db.py:463-476 | the saved bills are exactly one per billable subscription, each that subscription's `Bill` |
| Store.SweepMovesLater | db.py:472-473 | a billed subscription's next payment date moves strictly later, by exactly one period |
| Store.SweepOfSelection | db.py:463-476 | the loop over the selected rows, in any order, ends with the advanced rows and the bills in the tables, and returns exactly the bills |
| Store.SweepRowsPrefix | db.py:466-476 | after each pass, the rows handled so far are advanced and billed, and the returned list holds exactly their bills |
| Dashboard.WindowIsTheDays | dashboard_data.py:27-32 | a stored transaction is in the trend window exactly when it is completed and dated from `days` days ago to today |
| Dashboard.DashboardDataProvider.WindowTransactions | dashboard_data.py:27-32 | the window's transactions, each once |
| Dashboard.DashboardDataProvider.GetLiquidityTrend | dashboard_data.py:20-94 | the series is `LiquidityTrend` of the tables |
| Dashboard.LiquidityTrendShape | dashboard_data.py:34-94 | with fewer than 5 transactions in the window the series is today's liquidity and 0 at the first day, sorted by date. Otherwise it has one point per day from `days-1` days ago to today, in date order, ending with today's value |
| Dashboard.LiquiditySeriesShape | dashboard_data.py:54-94 | the replayed liquidity series is strictly increasing by date. Each past day is `max(0, liquidity with the later days' impacts undone + (i % 5 - 2) * 10)`, never negative |
| Dashboard.DashboardDataProvider.GetNetWorthTrend | dashboard_data.py:96-188 | the series is `NetWorthTrend` of the tables, with the debts' payment histories taken as empty |
| Dashboard.NetWorthTrendShape | dashboard_data.py:119-188 | the same two shapes as the liquidity trend, ending with today's net worth |
| Dashboard.NetWorthSeriesShape | dashboard_data.py:157-188 | each past day up to 3 days back holds the net worth with the later days' impacts undone; further days hold 0; sorted by date |
| Dashboard.DashboardDataProvider.GetNetWorthTrendAsWritten | dashboard_data.py:96-188 | the code as written fails exactly when the window has at least 5 transactions and any debt is stored; otherwise it gives `NetWorthTrend` |
| Dashboard.DashboardDataProvider.ReadsPaymentHistory | dashboard_data.py:147-151 | reading `payment_history` raises exactly when some debt is stored |
| Dashboard.BucketByDay | dashboard_data.py:59-70 | the per-day buckets are the fold of `AddToBucket` over the window's rows |
| Dashboard.BucketsHoldImpacts | dashboard_data.py:59-70 | each day's bucket is the sum of that day's impacts: +amount for incomes, -amount for spendings, 0 otherwise |
| Dashboard.DashboardDataProvider.GetMonthlySavings | dashboard_data.py:190-211 | the series is `MonthlySavings` of the tables, or `None` where `date(year, month, 1)` raises `ValueError`. That happens when some month's year leaves 1 to 9999, or when the month is still 0 or less after the single `+12` wrap, that is when `months > today.month + 12` |
| Dashboard.MonthlySavingsShape | dashboard_data.py:194-209 | one entry per month, oldest first, the k-th being the contribution of the month `months-1-k` months before today's month |
| Dashboard.MonthlySavingsDefined | dashboard_data.py:194-209 | for up to 12 months and a year of at least 2 the series is well defined |
| Dashboard.ReplayStep | dashboard_data.py:72-80 | undoing the bucket of one more past day gives the replayed value for that day |
| Dashboard.TodayIsNeverUndone | dashboard_data.py:72-80 | the loop from 1 to `days-1` never undoes today's transactions |
| Dashboard.ReplayedOnlyUndoesPastDays | dashboard_data.py:72-80 | a transaction dated on a day the loop has not reached does not change the replayed value |
| Dashboard.DatedBackSorts | dashboard_data.py:92 | sorting points whose dates descend reverses them |
| Dashboard.FallbackSorted | dashboard_data.py:44-52 | the two fallback points, sorted by date, are the fallback series |
| Workflows.AccountsById | ui/pending.py:280 | the lookup table holds every stored account under its own id, and its rows are the stored table |
| Workflows.ApproveTransaction | ui/pending.py:276-292 | succeeds exactly when `Approval` does, and then the tables are its result; otherwise nothing changes |
| Workflows.ApprovalEffect | ui/pending.py:276-292 | approval succeeds exactly when the transaction is stored and executes. Then the total balance moves by its impact, accounts it does not name keep their rows, it alone is marked completed, and no row is added or removed |
| Workflows.ApprovalOnce | ui/pending.py:276-292 | approving the same transaction twice fails the second time |
| Workflows.ReconcileAccount | ui/accounts.py:473-501 | succeeds exactly when `Reconciliation` does, and then the tables are its result; otherwise nothing changes |
| Workflows.ReconciliationEffect | ui/accounts.py:473-501 | succeeds exactly for a truthy stored account id. The account's balance becomes the reported one. A non-zero difference adds one completed adjustment whose signed amount closes the gap; none is added otherwise |
| Workflows.ReconciliationIdempotent | ui/accounts.py:473-501 | reconciling again to the same balance changes nothing |
| Workflows.AdjustmentNeverExecutes | ui/accounts.py:490-500 | the adjustment is recorded as completed, so it can never be approved and applied again |

## Left out

- SQLite itself is not modelled: connections, commits, the schema and its foreign keys. Each table is a map from id to row, and `INSERT OR REPLACE` is a map update.
- `ORDER BY` is stated as a property of the result: it is sorted by the date text. Rows with equal dates may come in any order, which SQLite also leaves open. The dashboard's own `list.sort` is the stable `SortStable`.
- Money is `float` in the source and an integer here. Rounding of floating point is not modelled.
- `uuid.uuid4()`, `date.today()` and `datetime.now()` are parameters: `freshId`, `billIds` and `today`.
- The sweep needs one distinct fresh id per bill (`FreshBillIds`); uuid4 gives that only with overwhelming probability.
- Python dates stop at year 9999. Where `timedelta` arithmetic would raise `OverflowError`, or `relativedelta` would raise `ValueError`, the model requires that the result stays in range (`IsDate(...)`).
- `Dates.ParseIso` accepts exactly the ten-character `YYYY-MM-DD` form. `strptime(..., "%Y-%m-%d")` also accepts unpadded forms such as `2024-1-5`; those are not modelled. Every row the store writes uses the padded form.
- `FromDict` takes rows in the store's own layout. The `bool(...)`/`float(...)` conversions of other inputs are not modelled.
- The `strftime("%d %b")` / `strftime("%b")` labels of the dashboard series are left out; points carry the ISO date and the value.
- `get_dashboard_data` (dashboard_data.py:12-18) only gathers the three series. `export_dashboard_data_as_json` (dashboard_data.py:213-216) only serialises them.
- GetSavingsStats: lists the savings accounts by their rows, not as fresh `Account` objects. The list is in the order of the store's listing, which the unordered `SELECT id FROM accounts` leaves open. No caller in the repository reads the list (ui/dashboard.py:180-193).
- Store.Database.GetNetWorth and the dashboard's net-worth trend keep the double count of credit debt as the code is written. The corrected net worth of the Findings table is stated and proved beside them, in `IntendedNetWorth`.
- Store.MonthWindowIsTheMonth: proved for the years 1000 to 9998. Outside them `str(year)` is not four digits, and December 9999 has no following year.
- Dashboard.DashboardDataProvider.GetLiquidityTrend: requires `days >= 1`. With `days = 0` the source builds an empty `range` and a fallback dated a day in the future; that case is not modelled.
- Dashboard.DashboardDataProvider.GetNetWorthTrend: requires `days >= 1`, as above. It treats every debt's payment history as empty (see Findings).
- Dashboard.DashboardDataProvider.GetNetWorthTrendAsWritten: reads the debts before the window's transactions. Both calls only read, so the order does not change the result.
- Dashboard.DashboardDataProvider.GetMonthlySavings: `None` stands for the `ValueError` of `date(year, month, 1)`. The label it would format is not modelled.
- The UI of `ui/pending.py` and `ui/accounts.py` is left out: widgets, snack bars, dialogs and reloads. Workflows keeps only the store calls.
- Workflows.ReconcileAccount: takes the reported balance as an integer. The `float(...)` parse of the text field, and its `ValueError` branch (ui/accounts.py:510-513), are not modelled.
- Workflows.ReconcileAccount: a `freshId` equal to an existing transaction's id overwrites that row, as `INSERT OR REPLACE` would.
- The other UI files and `main.py` are not part of this model.

## Findings

| source | as written | input that shows it | evidently intended | confidence | as-written member | corrected member |
|---|---|---|---|---|---|---|
| dashboard_data.py:147-154 | `get_net_worth_trend` reads `debt.payment_history`, but `Debt` (models.py:164-176) never defines that attribute | any stored debt, plus at least 5 completed transactions in the window: `AttributeError` is raised and no series is returned | debts without a payment history add nothing to the daily changes | not executed | Dashboard.DashboardDataProvider.GetNetWorthTrendAsWritten | Dashboard.DashboardDataProvider.GetNetWorthTrend |
| db.py:405-417 | `get_net_worth` adds every balance to the assets, so a credit account's negative balance already lowers them. It then adds that balance's absolute value to the liabilities as well | a credit account at balance -100 and nothing else: assets -100, liabilities 100, net worth -200 | a credit debt lowers net worth once, by 100. The comments at db.py:403 and 412 describe each sum as the code computes it, but not the combined double count | medium; not executed | Store.CreditDebtCountedTwice | Store.IntendedNetWorthCountsOnce |
