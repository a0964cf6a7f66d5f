/**
  * The four entities of the ledger: accounts, transactions, debts and
  * subscriptions. Each is a class whose methods update it in place, with a
  * `ToDict` rendering into the row the store keeps and a `FromDict` that
  * rebuilds the object from such a row. The rules those methods follow are
  * stated once, as functions over rows, and the methods are proved against
  * them.
  */
module Models {
  import opened Wrappers
  import opened Dates
  import opened Tables

  /** A primary key: `id or str(uuid.uuid4())` is never empty. */
  type Id = s: string | s != "" witness "0"

  // Account types
  const DebitAccount: string := "debit"
  const CreditAccount: string := "credit"
  const SavingsAccount: string := "savings"

  // Transaction types
  const Transfer: string := "transfer"
  const Spending: string := "spending"
  const Income: string := "income"
  const Adjustment: string := "adjustment"

  // Statuses
  const Pending: string := "pending"
  const Completed: string := "completed"
  const Paid: string := "paid"
  const Overdue: string := "overdue"
  const Active: string := "active"

  // Billing frequencies
  const Monthly: string := "monthly"
  const Quarterly: string := "quarterly"
  const Yearly: string := "yearly"

  /** Python truthiness of a nullable reference: both `None` and `""` count as absent. */
  predicate Truthy(ref: Option<string>)
  {
    ref.Some? && ref.value != ""
  }

  /** `id or str(uuid.uuid4())`, with the fresh identifier supplied by the caller. */
  function IdOr(given: string, freshId: Id): (r: Id)
    ensures given != "" ==> r == given
    ensures given == "" ==> r == freshId
  {
    if given != "" then given else freshId
  }

  /** `1 if b else 0`, the storage form of a boolean. */
  function Flag(b: bool): int
  {
    if b then 1 else 0
  }

  // ===== Accounts =====

  /**
    * The floor an account's balance must keep: a credit account may not go
    * below minus its limit, a savings account may not go below zero, and a
    * debit account (or any other type) has no floor.
    */
  predicate WithinFloor(accountType: string, balance: int, creditLimit: int)
  {
    && (accountType == CreditAccount ==> balance >= -creditLimit)
    && (accountType == SavingsAccount ==> balance >= 0)
  }

  /** The balance `withdraw(amount)` leaves, or `None` when it refuses and leaves the balance alone. */
  function Withdrawal(accountType: string, balance: int, creditLimit: int, amount: int): (r: Option<int>)
    ensures r.Some? ==> r.value == balance - amount
    ensures r.Some? <==> WithinFloor(accountType, balance - amount, creditLimit)
  {
    if accountType == CreditAccount then
      if balance - amount >= -creditLimit then Some(balance - amount) else None
    else if accountType == SavingsAccount then
      if balance >= amount then Some(balance - amount) else None
    else
      Some(balance - amount)
  }

  /** `get_available_balance()`. */
  function Available(accountType: string, balance: int, creditLimit: int): (r: int)
    ensures accountType == CreditAccount || accountType == SavingsAccount ==>
      forall amount :: Withdrawal(accountType, balance, creditLimit, amount).Some? <==> amount <= r
    ensures accountType == DebitAccount ==> r >= 0 && (balance >= 0 ==> r == balance)
    ensures accountType != CreditAccount ==> r == balance || (accountType == DebitAccount && r == 0)
  {
    if accountType == CreditAccount then balance + creditLimit
    else if accountType == DebitAccount && balance < 0 then 0
    else balance
  }

  /** One call on an account: `deposit(amount)` or `withdraw(amount)`. */
  datatype AccountCall = DepositCall(amount: int) | WithdrawCall(amount: int)

  /** The balance after the calls in turn; a refused withdrawal leaves the balance as it was. */
  function BalanceAfter(accountType: string, balance: int, creditLimit: int, calls: seq<AccountCall>): int
    decreases |calls|
  {
    if |calls| == 0 then balance
    else
      var next := match calls[0]
        case DepositCall(amount) => balance + amount
        case WithdrawCall(amount) =>
          match Withdrawal(accountType, balance, creditLimit, amount)
          case Some(b) => b
          case None => balance;
      BalanceAfter(accountType, next, creditLimit, calls[1..])
  }

  /** No run of non-negative deposits and arbitrary withdrawals takes an account through its floor. */
  lemma {:induction false} BalanceAfterKeepsFloor(accountType: string, balance: int, creditLimit: int, calls: seq<AccountCall>)
    requires WithinFloor(accountType, balance, creditLimit)
    requires forall i | 0 <= i < |calls| :: calls[i].DepositCall? ==> calls[i].amount >= 0
    ensures WithinFloor(accountType, BalanceAfter(accountType, balance, creditLimit, calls), creditLimit)
    decreases |calls|
  {
    if |calls| > 0 {
      var next := match calls[0]
        case DepositCall(amount) => balance + amount
        case WithdrawCall(amount) =>
          match Withdrawal(accountType, balance, creditLimit, amount)
          case Some(b) => b
          case None => balance;
      assert WithinFloor(accountType, next, creditLimit);
      BalanceAfterKeepsFloor(accountType, next, creditLimit, calls[1..]);
    }
  }

  /** An account as the store keeps it (`to_dict()`). */
  datatype AccountRow = AccountRow(
    id: string, name: string, accountType: string, currency: string,
    balance: int, creditLimit: int, isSavings: int)

  /** What `to_dict()` can produce: a non-empty id and a 0/1 savings flag. */
  predicate CanonicalAccount(r: AccountRow)
  {
    r.id != "" && (r.isSavings == 0 || r.isSavings == 1)
  }

  /** `Account.from_dict(row).to_dict()`. */
  function ReadAccount(row: AccountRow, freshId: Id): AccountRow
  {
    row.(id := IdOr(row.id, freshId), isSavings := Flag(row.isSavings != 0))
  }

  /** Reading a row back gives it unchanged exactly when `to_dict()` could have written it. */
  lemma ReadAccountCanonical(row: AccountRow, freshId: Id)
    ensures ReadAccount(row, freshId) == row <==> CanonicalAccount(row)
  {
  }

  function DepositInto(a: AccountRow, amount: int): AccountRow
  {
    a.(balance := a.balance + amount)
  }

  function WithdrawFrom(a: AccountRow, amount: int): Option<AccountRow>
  {
    match Withdrawal(a.accountType, a.balance, a.creditLimit, amount)
    case None => None
    case Some(b) => Some(a.(balance := b))
  }

  class Account {
    const id: Id
    const name: string
    const accountType: string
    const currency: string
    var balance: int
    const creditLimit: int
    const isSavings: bool

    /** `Account(id, ...)` with `id or uuid4()`. */
    constructor (id: string, freshId: Id, name: string, accountType: string, currency: string,
                 balance: int, creditLimit: int, isSavings: bool)
      ensures this.id == IdOr(id, freshId) && this.name == name && this.accountType == accountType
      ensures this.currency == currency && this.balance == balance && this.creditLimit == creditLimit
      ensures this.isSavings == isSavings
    {
      this.id := IdOr(id, freshId);
      this.name := name;
      this.accountType := accountType;
      this.currency := currency;
      this.balance := balance;
      this.creditLimit := creditLimit;
      this.isSavings := isSavings;
    }

    method Deposit(amount: int)
      modifies this
      ensures balance == old(balance) + amount
    {
      balance := balance + amount;
    }

    method Withdraw(amount: int) returns (ok: bool)
      modifies this
      ensures ok == Withdrawal(accountType, old(balance), creditLimit, amount).Some?
      ensures balance == (if ok then old(balance) - amount else old(balance))
    {
      if accountType == CreditAccount {
        if balance - amount >= -creditLimit {
          balance := balance - amount;
          return true;
        }
        return false;
      } else if accountType == SavingsAccount {
        if balance >= amount {
          balance := balance - amount;
          return true;
        }
        return false;
      } else {
        balance := balance - amount;
        return true;
      }
    }

    function AvailableBalance(): int
      reads this
    {
      Available(accountType, balance, creditLimit)
    }

    /** Sets the balance to the reported one and returns the difference to book as an adjustment. */
    method ReconcileBalance(reported: int) returns (adjustment: int)
      modifies this
      ensures balance == reported
      ensures old(balance) + adjustment == reported
    {
      adjustment := reported - balance;
      balance := reported;
    }

    function ToDict(): (r: AccountRow)
      reads this
      ensures CanonicalAccount(r)
    {
      AccountRow(id, name, accountType, currency, balance, creditLimit, Flag(isSavings))
    }

    static method FromDict(row: AccountRow, freshId: Id) returns (a: Account)
      ensures fresh(a)
      ensures a.ToDict() == ReadAccount(row, freshId)
    {
      a := new Account(row.id, freshId, row.name, row.accountType, row.currency,
                       row.balance, row.creditLimit, row.isSavings != 0);
    }
  }

  // ===== Transactions =====

  /** A transaction as the store keeps it; the date is ISO text. */
  datatype TransactionRow = TransactionRow(
    id: string, date: string, amount: int, description: string, transactionType: string,
    fromAccountId: Option<string>, toAccountId: Option<string>, status: string, category: Option<string>)

  predicate CanonicalTransaction(r: TransactionRow)
  {
    r.id != "" && ParseIso(r.date).Some?
  }

  /**
    * The date `Transaction(date=...)` ends up with: `date or today`, then
    * `strptime`; `None` where `strptime` raises `ValueError`.
    */
  function ReadDate(text: string, today: Date): Option<Date>
  {
    if text == "" then Some(today) else ParseIso(text)
  }

  /** `Transaction.from_dict(row).to_dict()`, or `None` where `from_dict` raises. */
  function ReadTransaction(row: TransactionRow, today: Date, freshId: Id): Option<TransactionRow>
  {
    match ReadDate(row.date, today)
    case None => None
    case Some(d) => Some(row.(id := IdOr(row.id, freshId), date := IsoFormat(d)))
  }

  /** A row reads back as itself exactly when `to_dict()` could have written it. */
  lemma {:induction false} ReadTransactionCanonical(row: TransactionRow, today: Date, freshId: Id)
    ensures ReadTransaction(row, today, freshId) == Some(row) <==> CanonicalTransaction(row)
  {
    IsoFormatShape(today);
    if CanonicalTransaction(row) {
      FormatParsedIso(row.date);
    }
    if ReadTransaction(row, today, freshId) == Some(row) {
      var d := ReadDate(row.date, today).value;
      IsoFormatShape(d);
      ParseIsoFormat(d);
    }
  }

  /** The net change a completed transaction makes to the sum of all balances. */
  function Impact(t: TransactionRow): int
  {
    if t.transactionType == Income then t.amount
    else if t.transactionType == Spending then -t.amount
    else 0
  }

  /**
    * `execute(accounts)` on the rows of the accounts it can reach, keyed by id:
    * the balances afterwards, or `None` when it returns `False` and changes nothing.
    */
  function ExecuteOn(t: TransactionRow, accounts: map<string, AccountRow>): Option<map<string, AccountRow>>
  {
    if t.status != Pending then None
    else if t.transactionType == Transfer && Truthy(t.fromAccountId) && Truthy(t.toAccountId) then
      var src, dst := t.fromAccountId.value, t.toAccountId.value;
      if src in accounts && dst in accounts then
        match WithdrawFrom(accounts[src], t.amount)
        case None => None
        case Some(a) =>
          var drawn := accounts[src := a];
          Some(drawn[dst := DepositInto(drawn[dst], t.amount)])
      else None
    else if t.transactionType == Spending && Truthy(t.fromAccountId) then
      var src := t.fromAccountId.value;
      if src in accounts then
        match WithdrawFrom(accounts[src], t.amount)
        case None => None
        case Some(a) => Some(accounts[src := a])
      else None
    else if t.transactionType == Income && Truthy(t.toAccountId) then
      var dst := t.toAccountId.value;
      if dst in accounts then Some(accounts[dst := DepositInto(accounts[dst], t.amount)]) else None
    else if t.transactionType == Adjustment && (Truthy(t.fromAccountId) || Truthy(t.toAccountId)) then
      Some(accounts)
    else None
  }

  ghost function TotalBalance(accounts: map<string, AccountRow>): int
  {
    SumMap(accounts, (a: AccountRow) => a.balance)
  }

  /** A successful execution moves the total of all balances by exactly its `Impact`: transfers conserve money. */
  lemma {:induction false} ExecuteImpact(t: TransactionRow, accounts: map<string, AccountRow>)
    requires ExecuteOn(t, accounts).Some?
    ensures TotalBalance(ExecuteOn(t, accounts).value) == TotalBalance(accounts) + Impact(t)
  {
    var f := (a: AccountRow) => a.balance;
    if t.transactionType == Transfer {
      var src, dst := t.fromAccountId.value, t.toAccountId.value;
      var a := WithdrawFrom(accounts[src], t.amount).value;
      var drawn := accounts[src := a];
      SumMapUpdate(accounts, f, src, a);
      SumMapUpdate(drawn, f, dst, DepositInto(drawn[dst], t.amount));
    } else if t.transactionType == Spending {
      var src := t.fromAccountId.value;
      SumMapUpdate(accounts, f, src, WithdrawFrom(accounts[src], t.amount).value);
    } else if t.transactionType == Income {
      var dst := t.toAccountId.value;
      SumMapUpdate(accounts, f, dst, DepositInto(accounts[dst], t.amount));
    }
  }

  /** A successful execution touches only the accounts the transaction names, and only their balances. */
  lemma ExecuteFrame(t: TransactionRow, accounts: map<string, AccountRow>)
    requires ExecuteOn(t, accounts).Some?
    ensures var after := ExecuteOn(t, accounts).value;
      && after.Keys == accounts.Keys
      && (forall k | k in accounts :: after[k] == accounts[k].(balance := after[k].balance))
      && (forall k | k in accounts && !(t.fromAccountId == Some(k) || t.toAccountId == Some(k)) :: after[k] == accounts[k])
  {
  }

  /** A completed transaction is never applied twice. */
  lemma ExecuteOnce(t: TransactionRow, accounts: map<string, AccountRow>)
    requires ExecuteOn(t, accounts).Some?
    ensures ExecuteOn(t.(status := Completed), ExecuteOn(t, accounts).value).None?
  {
  }

  /**
    * With a non-negative amount, an execution keeps every account that was
    * within its floor within it.
    */
  lemma ExecuteKeepsFloors(t: TransactionRow, accounts: map<string, AccountRow>)
    requires ExecuteOn(t, accounts).Some? && t.amount >= 0
    requires forall k | k in accounts :: WithinFloor(accounts[k].accountType, accounts[k].balance, accounts[k].creditLimit)
    ensures var after := ExecuteOn(t, accounts).value;
      forall k | k in after :: WithinFloor(after[k].accountType, after[k].balance, after[k].creditLimit)
  {
  }

  /** The rows of the account objects a lookup table reaches. */
  function Snapshot(accounts: map<string, Account>): map<string, AccountRow>
    reads accounts.Values
  {
    map k | k in accounts :: accounts[k].ToDict()
  }

  /** Every account object in a lookup table sits under its own id. */
  predicate IndexedById(accounts: map<string, Account>)
    reads accounts.Values
  {
    forall k | k in accounts :: accounts[k].id == k
  }

  class Transaction {
    const id: Id
    const date: Date
    const amount: int
    const description: string
    const transactionType: string
    const fromAccountId: Option<string>
    const toAccountId: Option<string>
    var status: string
    const category: Option<string>

    constructor (id: string, freshId: Id, date: Date, amount: int, description: string, transactionType: string,
                 fromAccountId: Option<string>, toAccountId: Option<string>, status: string, category: Option<string>)
      ensures this.id == IdOr(id, freshId) && this.date == date && this.amount == amount
      ensures this.description == description && this.transactionType == transactionType
      ensures this.fromAccountId == fromAccountId && this.toAccountId == toAccountId
      ensures this.status == status && this.category == category
    {
      this.id := IdOr(id, freshId);
      this.date := date;
      this.amount := amount;
      this.description := description;
      this.transactionType := transactionType;
      this.fromAccountId := fromAccountId;
      this.toAccountId := toAccountId;
      this.status := status;
      this.category := category;
    }

    function ToDict(): TransactionRow
      reads this
    {
      TransactionRow(id, IsoFormat(date), amount, description, transactionType,
                     fromAccountId, toAccountId, status, category)
    }

    /** What `to_dict()` writes is a row `from_dict` reads back as it is: a non-empty id and an ISO date. */
    lemma DictIsCanonical()
      ensures CanonicalTransaction(ToDict())
    {
      ParseIsoFormat(date);
    }

    /** Returns `null` where Python raises `ValueError` on the date text. */
    static method FromDict(row: TransactionRow, today: Date, freshId: Id) returns (t: Transaction?)
      ensures t == null <==> ReadTransaction(row, today, freshId).None?
      ensures t != null ==> fresh(t) && t.ToDict() == ReadTransaction(row, today, freshId).value
    {
      var d := ReadDate(row.date, today);
      if d.None? {
        return null;
      }
      t := new Transaction(row.id, freshId, d.value, row.amount, row.description, row.transactionType,
                           row.fromAccountId, row.toAccountId, row.status, row.category);
    }

    /**
      * `execute(accounts)`: applies the transaction to the accounts it names
      * and marks it completed, or returns `false` and changes nothing.
      */
    method Execute(accounts: map<string, Account>) returns (ok: bool)
      requires IndexedById(accounts)
      modifies this, accounts.Values
      ensures ok == ExecuteOn(old(ToDict()), old(Snapshot(accounts))).Some?
      ensures ok ==> Snapshot(accounts) == ExecuteOn(old(ToDict()), old(Snapshot(accounts))).value
      ensures !ok ==> Snapshot(accounts) == old(Snapshot(accounts))
      ensures status == (if ok then Completed else old(status))
    {
      if status != Pending {
        return false;
      }
      if transactionType == Transfer && Truthy(fromAccountId) && Truthy(toAccountId) {
        var src, dst := fromAccountId.value, toAccountId.value;
        if src in accounts && dst in accounts {
          ok := TransferBetween(accounts, src, dst);
          return;
        }
      } else if transactionType == Spending && Truthy(fromAccountId) {
        var src := fromAccountId.value;
        if src in accounts {
          ok := SpendFrom(accounts, src);
          return;
        }
      } else if transactionType == Income && Truthy(toAccountId) {
        var dst := toAccountId.value;
        if dst in accounts {
          ok := PayInto(accounts, dst);
          return;
        }
      } else if transactionType == Adjustment && (Truthy(fromAccountId) || Truthy(toAccountId)) {
        status := Completed;
        return true;
      }
      return false;
    }

    /** The transfer branch of `execute`. */
    method TransferBetween(accounts: map<string, Account>, src: string, dst: string) returns (ok: bool)
      requires IndexedById(accounts) && src in accounts && dst in accounts
      requires status == Pending && transactionType == Transfer
      requires fromAccountId == Some(src) && toAccountId == Some(dst) && src != "" && dst != ""
      modifies this, accounts.Values
      ensures ok == ExecuteOn(old(ToDict()), old(Snapshot(accounts))).Some?
      ensures ok ==> Snapshot(accounts) == ExecuteOn(old(ToDict()), old(Snapshot(accounts))).value
      ensures !ok ==> Snapshot(accounts) == old(Snapshot(accounts))
      ensures status == (if ok then Completed else old(status))
    {
      ghost var before := Snapshot(accounts);
      ok := WithdrawAt(accounts, src, amount);
      if ok {
        DepositAt(accounts, dst, amount);
        status := Completed;
      }
    }

    /** The spending branch of `execute`. */
    method SpendFrom(accounts: map<string, Account>, src: string) returns (ok: bool)
      requires IndexedById(accounts) && src in accounts
      requires status == Pending && transactionType == Spending && fromAccountId == Some(src) && src != ""
      modifies this, accounts.Values
      ensures ok == ExecuteOn(old(ToDict()), old(Snapshot(accounts))).Some?
      ensures ok ==> Snapshot(accounts) == ExecuteOn(old(ToDict()), old(Snapshot(accounts))).value
      ensures !ok ==> Snapshot(accounts) == old(Snapshot(accounts))
      ensures status == (if ok then Completed else old(status))
    {
      ok := WithdrawAt(accounts, src, amount);
      if ok {
        status := Completed;
      }
    }

    /** The income branch of `execute`. */
    method PayInto(accounts: map<string, Account>, dst: string) returns (ok: bool)
      requires IndexedById(accounts) && dst in accounts
      requires status == Pending && transactionType == Income && toAccountId == Some(dst) && dst != ""
      modifies this, accounts.Values
      ensures ok && Snapshot(accounts) == ExecuteOn(old(ToDict()), old(Snapshot(accounts))).value
      ensures status == Completed
    {
      DepositAt(accounts, dst, amount);
      status := Completed;
      ok := true;
    }
  }

  /** `accounts[k].withdraw(amount)`, seen through the snapshot. */
  method WithdrawAt(accounts: map<string, Account>, k: string, amount: int) returns (ok: bool)
    requires IndexedById(accounts) && k in accounts
    modifies accounts[k]
    ensures WithdrawFrom(old(Snapshot(accounts))[k], amount).Some? == ok
    ensures Snapshot(accounts) == if ok then old(Snapshot(accounts))[k := WithdrawFrom(old(Snapshot(accounts))[k], amount).value]
                                  else old(Snapshot(accounts))
  {
    ghost var before := Snapshot(accounts);
    var a := accounts[k];
    ok := a.Withdraw(amount);
    forall j | j in accounts && j != k
      ensures accounts[j].ToDict() == before[j]
    {
      assert accounts[j].id == j;
    }
    SnapshotUpdated(accounts, before, k);
  }

  /** `accounts[k].deposit(amount)`, seen through the snapshot. */
  method DepositAt(accounts: map<string, Account>, k: string, amount: int)
    requires IndexedById(accounts) && k in accounts
    modifies accounts[k]
    ensures Snapshot(accounts) == old(Snapshot(accounts))[k := DepositInto(old(Snapshot(accounts))[k], amount)]
  {
    ghost var before := Snapshot(accounts);
    var a := accounts[k];
    a.Deposit(amount);
    forall j | j in accounts && j != k
      ensures accounts[j].ToDict() == before[j]
    {
      assert accounts[j].id == j;
    }
    SnapshotUpdated(accounts, before, k);
  }

  /**
    * When only the account under `k` renders differently, and only in its
    * balance, the snapshot is the previous one with that balance replaced.
    */
  lemma SnapshotUpdated(accounts: map<string, Account>, before: map<string, AccountRow>, k: string)
    requires k in accounts && before.Keys == accounts.Keys
    requires forall j | j in accounts && j != k :: accounts[j].ToDict() == before[j]
    requires accounts[k].ToDict() == before[k].(balance := accounts[k].balance)
    ensures Snapshot(accounts) == before[k := before[k].(balance := accounts[k].balance)]
  {
  }

  // ===== Debts =====

  /** A debt as the store keeps it; `isReceivable` is 0/1 and the due date ISO text. */
  datatype DebtRow = DebtRow(
    id: string, description: string, amount: int, dueDate: string, isReceivable: int,
    linkedAccountId: Option<string>, status: string, currency: string)

  predicate CanonicalDebt(r: DebtRow)
  {
    r.id != "" && ParseIso(r.dueDate).Some? && (r.isReceivable == 0 || r.isReceivable == 1)
  }

  /** `Debt.from_dict(row).to_dict()`, or `None` where `from_dict` raises. */
  function ReadDebt(row: DebtRow, today: Date, freshId: Id): Option<DebtRow>
  {
    match ReadDate(row.dueDate, today)
    case None => None
    case Some(d) => Some(row.(id := IdOr(row.id, freshId), dueDate := IsoFormat(d),
                              isReceivable := Flag(row.isReceivable != 0)))
  }

  lemma {:induction false} ReadDebtCanonical(row: DebtRow, today: Date, freshId: Id)
    ensures ReadDebt(row, today, freshId) == Some(row) <==> CanonicalDebt(row)
  {
    IsoFormatShape(today);
    if CanonicalDebt(row) {
      FormatParsedIso(row.dueDate);
    }
    if ReadDebt(row, today, freshId) == Some(row) {
      var d := ReadDate(row.dueDate, today).value;
      IsoFormatShape(d);
      ParseIsoFormat(d);
    }
  }

  /**
    * The transaction `mark_as_paid(date)` creates: income into the linked
    * account for a receivable debt, spending from it for a payable one; `None`
    * for a debt already paid or without a linked account.
    */
  function Settlement(d: DebtRow, date: Date, freshId: Id): (r: Option<TransactionRow>)
    ensures r.None? <==> d.status == Paid || !Truthy(d.linkedAccountId)
    ensures r.Some? ==> CanonicalTransaction(r.value) && r.value.status == Pending && r.value.amount == d.amount
    ensures r.Some? ==> r.value.id == freshId && r.value.date == IsoFormat(date) && r.value.category == None
    ensures r.Some? && d.isReceivable != 0 ==>
      r.value.transactionType == Income && r.value.fromAccountId == None && r.value.toAccountId == d.linkedAccountId
    ensures r.Some? && d.isReceivable == 0 ==>
      r.value.transactionType == Spending && r.value.fromAccountId == d.linkedAccountId && r.value.toAccountId == None
  {
    ParseIsoFormat(date);
    if d.status == Paid then None
    else if d.isReceivable != 0 && Truthy(d.linkedAccountId) then
      Some(TransactionRow(freshId, IsoFormat(date), d.amount, "Received payment for: " + d.description,
                          Income, None, d.linkedAccountId, Pending, None))
    else if d.isReceivable == 0 && Truthy(d.linkedAccountId) then
      Some(TransactionRow(freshId, IsoFormat(date), d.amount, "Paid debt: " + d.description,
                          Spending, d.linkedAccountId, None, Pending, None))
    else None
  }

  /**
    * Executing a settlement moves the linked account by the debt's amount:
    * up for a receivable, down for a payable (when the account's floor
    * allows it); nothing else changes.
    */
  lemma {:induction false} SettlementExecutes(d: DebtRow, date: Date, freshId: Id, accounts: map<string, AccountRow>)
    requires Settlement(d, date, freshId).Some?
    requires d.linkedAccountId.value in accounts
    ensures var l := d.linkedAccountId.value;
      var a := accounts[l];
      var r := ExecuteOn(Settlement(d, date, freshId).value, accounts);
      && (d.isReceivable != 0 ==> r == Some(accounts[l := DepositInto(a, d.amount)]))
      && (d.isReceivable == 0 ==> (r.Some? <==> WithinFloor(a.accountType, a.balance - d.amount, a.creditLimit)))
      && (r.Some? ==> TotalBalance(r.value) == TotalBalance(accounts) + (if d.isReceivable != 0 then d.amount else -d.amount))
  {
    var t := Settlement(d, date, freshId).value;
    if ExecuteOn(t, accounts).Some? {
      ExecuteImpact(t, accounts);
    }
  }

  class Debt {
    const id: Id
    const description: string
    const amount: int
    const dueDate: Date
    const isReceivable: bool
    const linkedAccountId: Option<string>
    var status: string
    const currency: string

    constructor (id: string, freshId: Id, description: string, amount: int, dueDate: Date, isReceivable: bool,
                 linkedAccountId: Option<string>, status: string, currency: string)
      ensures this.id == IdOr(id, freshId) && this.description == description && this.amount == amount
      ensures this.dueDate == dueDate && this.isReceivable == isReceivable
      ensures this.linkedAccountId == linkedAccountId && this.status == status && this.currency == currency
    {
      this.id := IdOr(id, freshId);
      this.description := description;
      this.amount := amount;
      this.dueDate := dueDate;
      this.isReceivable := isReceivable;
      this.linkedAccountId := linkedAccountId;
      this.status := status;
      this.currency := currency;
    }

    function ToDict(): DebtRow
      reads this
    {
      DebtRow(id, description, amount, IsoFormat(dueDate), Flag(isReceivable), linkedAccountId, status, currency)
    }

    /** What `to_dict()` writes is a row `from_dict` reads back as it is: a non-empty id and an ISO date. */
    lemma DictIsCanonical()
      ensures CanonicalDebt(ToDict())
    {
      ParseIsoFormat(dueDate);
    }

    static method FromDict(row: DebtRow, today: Date, freshId: Id) returns (d: Debt?)
      ensures d == null <==> ReadDebt(row, today, freshId).None?
      ensures d != null ==> fresh(d) && d.ToDict() == ReadDebt(row, today, freshId).value
    {
      var due := ReadDate(row.dueDate, today);
      if due.None? {
        return null;
      }
      d := new Debt(row.id, freshId, row.description, row.amount, due.value, row.isReceivable != 0,
                    row.linkedAccountId, row.status, row.currency);
    }

    /**
      * `mark_as_paid(transaction_date)`: the settling transaction, dated
      * `transaction_date or today`; the debt becomes paid exactly when one is
      * created.
      */
    method MarkAsPaid(transactionDate: Option<Date>, today: Date, freshId: Id) returns (t: Transaction?)
      modifies this
      ensures var r := Settlement(old(ToDict()), if transactionDate.Some? then transactionDate.value else today, freshId);
        && (t == null <==> r.None?)
        && (t != null ==> fresh(t) && t.ToDict() == r.value)
        && status == (if t != null then Paid else old(status))
    {
      if status == Paid {
        return null;
      }
      var date := if transactionDate.Some? then transactionDate.value else today;
      if isReceivable && Truthy(linkedAccountId) {
        t := new Transaction("", freshId, date, amount, "Received payment for: " + description,
                             Income, None, linkedAccountId, Pending, None);
      } else if !isReceivable && Truthy(linkedAccountId) {
        t := new Transaction("", freshId, date, amount, "Paid debt: " + description,
                             Spending, linkedAccountId, None, Pending, None);
      } else {
        return null;
      }
      status := Paid;
    }
  }

  // ===== Subscriptions =====

  /** A subscription as the store keeps it; the next payment date is ISO text. */
  datatype SubscriptionRow = SubscriptionRow(
    id: string, name: string, amount: int, frequency: string, nextPaymentDate: string,
    linkedAccountId: Option<string>, status: string, currency: string, category: Option<string>)

  predicate CanonicalSubscription(r: SubscriptionRow)
  {
    r.id != "" && ParseIso(r.nextPaymentDate).Some?
  }

  /** `Subscription.from_dict(row).to_dict()`, or `None` where `from_dict` raises. */
  function ReadSubscription(row: SubscriptionRow, today: Date, freshId: Id): Option<SubscriptionRow>
  {
    match ReadDate(row.nextPaymentDate, today)
    case None => None
    case Some(d) => Some(row.(id := IdOr(row.id, freshId), nextPaymentDate := IsoFormat(d)))
  }

  lemma {:induction false} ReadSubscriptionCanonical(row: SubscriptionRow, today: Date, freshId: Id)
    ensures ReadSubscription(row, today, freshId) == Some(row) <==> CanonicalSubscription(row)
  {
    IsoFormatShape(today);
    if CanonicalSubscription(row) {
      FormatParsedIso(row.nextPaymentDate);
    }
    if ReadSubscription(row, today, freshId) == Some(row) {
      var d := ReadDate(row.nextPaymentDate, today).value;
      IsoFormatShape(d);
      ParseIsoFormat(d);
    }
  }

  /** The number of calendar months one billing period spans; unknown frequencies bill monthly. */
  function PeriodMonths(frequency: string): nat
  {
    if frequency == Quarterly then 3 else if frequency == Yearly then 12 else 1
  }

  /**
    * The next payment date after one payment: one period later, on the same
    * day of the month, or the month's last day when that month is shorter.
    */
  function NextPaymentDate(d: Ymd, frequency: string): (r: Ymd)
    requires IsCalendarDay(d)
    ensures IsCalendarDay(r) && Before(d, r)
    ensures MonthIndex(r) == MonthIndex(d) + PeriodMonths(frequency)
    ensures r.day == Min(d.day, DaysInMonth(r.year, r.month))
  {
    if frequency == Monthly then
      AddMonthsSpec(d, 1); AddMonthsLater(d, 1);
      AddMonths(d, 1)
    else if frequency == Quarterly then
      AddMonthsSpec(d, 3); AddMonthsLater(d, 3);
      AddMonths(d, 3)
    else if frequency == Yearly then
      AddYearsIsTwelveMonths(d, 1); AddMonthsSpec(d, 12); AddYearsLater(d, 1);
      AddYears(d, 1)
    else
      AddMonthsSpec(d, 1); AddMonthsLater(d, 1);
      AddMonths(d, 1)
  }

  /** The pending bill `generate_pending_transaction()` creates, dated on the next payment date. */
  function Bill(s: SubscriptionRow, freshId: Id): (r: Option<TransactionRow>)
    ensures r.Some? <==> s.status == Active && Truthy(s.linkedAccountId)
    ensures r.Some? ==> (
      && r.value.status == Pending && r.value.transactionType == Spending
      && r.value.date == s.nextPaymentDate && r.value.amount == s.amount
      && r.value.fromAccountId == s.linkedAccountId && r.value.category == s.category)
  {
    if s.status != Active || !Truthy(s.linkedAccountId) then None
    else Some(TransactionRow(freshId, s.nextPaymentDate, s.amount, "Subscription: " + s.name,
                             Spending, s.linkedAccountId, None, Pending, s.category))
  }

  /** A bill, once executed, takes the subscription's amount out of the linked account, or nothing at all. */
  lemma {:induction false} BillExecutes(s: SubscriptionRow, freshId: Id, accounts: map<string, AccountRow>)
    requires Bill(s, freshId).Some?
    ensures var r := ExecuteOn(Bill(s, freshId).value, accounts);
      r.Some? ==> TotalBalance(r.value) == TotalBalance(accounts) - s.amount
  {
    var t := Bill(s, freshId).value;
    if ExecuteOn(t, accounts).Some? {
      ExecuteImpact(t, accounts);
    }
  }

  class Subscription {
    const id: Id
    const name: string
    const amount: int
    const frequency: string
    var nextPaymentDate: Date
    const linkedAccountId: Option<string>
    const status: string
    const currency: string
    const category: Option<string>

    constructor (id: string, freshId: Id, name: string, amount: int, frequency: string, nextPaymentDate: Date,
                 linkedAccountId: Option<string>, status: string, currency: string, category: Option<string>)
      ensures this.id == IdOr(id, freshId) && this.name == name && this.amount == amount
      ensures this.frequency == frequency && this.nextPaymentDate == nextPaymentDate
      ensures this.linkedAccountId == linkedAccountId && this.status == status
      ensures this.currency == currency && this.category == category
    {
      this.id := IdOr(id, freshId);
      this.name := name;
      this.amount := amount;
      this.frequency := frequency;
      this.nextPaymentDate := nextPaymentDate;
      this.linkedAccountId := linkedAccountId;
      this.status := status;
      this.currency := currency;
      this.category := category;
    }

    function ToDict(): SubscriptionRow
      reads this
    {
      SubscriptionRow(id, name, amount, frequency, IsoFormat(nextPaymentDate), linkedAccountId,
                      status, currency, category)
    }

    /** What `to_dict()` writes is a row `from_dict` reads back as it is: a non-empty id and an ISO date. */
    lemma DictIsCanonical()
      ensures CanonicalSubscription(ToDict())
    {
      ParseIsoFormat(nextPaymentDate);
    }

    static method FromDict(row: SubscriptionRow, today: Date, freshId: Id) returns (s: Subscription?)
      ensures s == null <==> ReadSubscription(row, today, freshId).None?
      ensures s != null ==> fresh(s) && s.ToDict() == ReadSubscription(row, today, freshId).value
    {
      var next := ReadDate(row.nextPaymentDate, today);
      if next.None? {
        return null;
      }
      s := new Subscription(row.id, freshId, row.name, row.amount, row.frequency, next.value,
                            row.linkedAccountId, row.status, row.currency, row.category);
    }

    method GeneratePendingTransaction(freshId: Id) returns (t: Transaction?)
      ensures t == null <==> Bill(ToDict(), freshId).None?
      ensures t != null ==> fresh(t) && t.ToDict() == Bill(ToDict(), freshId).value
    {
      if status != Active || !Truthy(linkedAccountId) {
        return null;
      }
      t := new Transaction("", freshId, nextPaymentDate, amount, "Subscription: " + name,
                           Spending, linkedAccountId, None, Pending, category);
    }

    /**
      * `calculate_next_payment_date(after_payment)`: moves the next payment
      * date on by one period after a payment, and returns the date either way.
      * `relativedelta` raises `ValueError` past year 9999; the precondition keeps
      * the result in range instead.
      */
    method CalculateNextPaymentDate(afterPayment: bool) returns (d: Date)
      requires afterPayment ==> IsDate(NextPaymentDate(nextPaymentDate, frequency))
      modifies this
      ensures nextPaymentDate == (if afterPayment then NextPaymentDate(old(nextPaymentDate), frequency) else old(nextPaymentDate))
      ensures d == nextPaymentDate
    {
      if !afterPayment {
        return nextPaymentDate;
      }
      var current := nextPaymentDate;
      if frequency == Monthly {
        nextPaymentDate := AddMonths(current, 1);
      } else if frequency == Quarterly {
        nextPaymentDate := AddMonths(current, 3);
      } else if frequency == Yearly {
        nextPaymentDate := AddYears(current, 1);
      } else {
        nextPaymentDate := AddMonths(current, 1);
      }
      d := nextPaymentDate;
    }
  }

  // ----- Concrete instances of the billing calendar -----

  lemma MonthlyFromMidMonth()
    ensures NextPaymentDate(Ymd(2024, 1, 15), Monthly) == Ymd(2024, 2, 15)
  {
  }

  /** relativedelta clamps to the end of a shorter month: 31 January is followed by 29 February in a leap year. */
  lemma MonthlyClampsToMonthEnd()
    ensures NextPaymentDate(Ymd(2024, 1, 31), Monthly) == Ymd(2024, 2, 29)
    ensures NextPaymentDate(Ymd(2023, 1, 31), Monthly) == Ymd(2023, 2, 28)
    ensures NextPaymentDate(Ymd(2024, 2, 29), Yearly) == Ymd(2025, 2, 28)
    ensures NextPaymentDate(Ymd(2024, 11, 30), Quarterly) == Ymd(2025, 2, 28)
  {
  }
}
