/**
  * The two places where the screens put the model's pieces together and
  * write the result back: approving a pending transaction (execute it on
  * the stored accounts, then save the accounts it touched and the
  * transaction) and reconciling an account (set the reported balance and
  * book the difference as a completed adjustment). The widgets, dialogs and
  * messages around them are not modelled; `today` and the new transaction's
  * uuid are parameters.
  */
module Workflows {
  import opened Wrappers
  import opened Dates
  import opened Tables
  import opened Models
  import opened Store

  /** The two tables these workflows read and write. */
  datatype Books = Books(accounts: map<string, AccountRow>, transactions: map<string, TransactionRow>)

  // ----- Approving a pending transaction -----

  /**
    * The books after approving the transaction stored under `id`: its
    * execution on the stored accounts, and the transaction marked completed;
    * `None` when it is not stored or `execute` refuses it, and nothing is saved.
    */
  function Approval(b: Books, id: string): Option<Books>
  {
    if id !in b.transactions then None
    else
      match ExecuteOn(b.transactions[id], b.accounts)
      case None => None
      case Some(after) => Some(Books(after, b.transactions[id := b.transactions[id].(status := Completed)]))
  }

  /**
    * An approval succeeds exactly when the transaction is stored and
    * `execute` accepts it; it then moves the total of all balances by the
    * transaction's impact, leaves every account it does not name as it
    * was, and completes that transaction and no other.
    */
  lemma ApprovalEffect(b: Books, id: string)
    ensures Approval(b, id).Some? <==> id in b.transactions && ExecuteOn(b.transactions[id], b.accounts).Some?
    ensures Approval(b, id).Some? ==>
      var t, r := b.transactions[id], Approval(b, id).value;
      && TotalBalance(r.accounts) == TotalBalance(b.accounts) + Impact(t)
      && r.accounts.Keys == b.accounts.Keys
      && (forall k | k in b.accounts && !Names(t, k) :: r.accounts[k] == b.accounts[k])
      && r.transactions.Keys == b.transactions.Keys
      && r.transactions[id] == t.(status := Completed)
      && (forall k | k in b.transactions && k != id :: r.transactions[k] == b.transactions[k])
  {
    if Approval(b, id).Some? {
      var t := b.transactions[id];
      ExecuteImpact(t, b.accounts);
      ExecuteFrame(t, b.accounts);
      ExecuteTouchesOnlyNamed(t, b.accounts);
    }
  }

  /** Approving the same transaction a second time fails: its balances are never applied twice. */
  lemma {:induction false} ApprovalOnce(b: Books, id: string)
    requires Approval(b, id).Some?
    ensures Approval(Approval(b, id).value, id).None?
  {
    ExecuteOnce(b.transactions[id], b.accounts);
  }

  /** `t` names the account `k` as its source or its destination (a non-empty id). */
  predicate Names(t: TransactionRow, k: string)
  {
    (Truthy(t.fromAccountId) && t.fromAccountId.value == k) || (Truthy(t.toAccountId) && t.toAccountId.value == k)
  }

  /** `execute` changes no account the transaction does not name. */
  lemma ExecuteTouchesOnlyNamed(t: TransactionRow, accounts: map<string, AccountRow>)
    requires ExecuteOn(t, accounts).Some?
    ensures var after := ExecuteOn(t, accounts).value;
      after.Keys == accounts.Keys && forall k | k in accounts && !Names(t, k) :: after[k] == accounts[k]
  {
  }

  /** Saving the named accounts of `after` over `accounts` gives `after` itself. */
  lemma SavedNamed(t: TransactionRow, accounts: map<string, AccountRow>)
    requires ExecuteOn(t, accounts).Some?
    ensures var after := ExecuteOn(t, accounts).value;
      var src := if Truthy(t.fromAccountId) && t.fromAccountId.value in after
                 then accounts[t.fromAccountId.value := after[t.fromAccountId.value]] else accounts;
      (if Truthy(t.toAccountId) && t.toAccountId.value in after
       then src[t.toAccountId.value := after[t.toAccountId.value]] else src) == after
  {
    ExecuteTouchesOnlyNamed(t, accounts);
  }

  /** `{account.id: account for account in all}`, for a listing of the accounts table. */
  method AccountsById(all: seq<Account>, ghost table: map<string, AccountRow>) returns (byId: map<string, Account>)
    requires KeyedBy(table, AccountKey) && Lists(AccountRows(all), table, AccountKey)
    ensures IndexedById(byId) && (forall k | k in byId :: byId[k] in all)
    ensures Snapshot(byId) == table
  {
    ghost var rows := AccountRows(all);
    byId := map[];
    for i := 0 to |all|
      invariant IndexedById(byId) && (forall k | k in byId :: byId[k] in all)
      invariant forall j | 0 <= j < i :: AccountKey(rows[j]) in byId
      invariant forall k | k in byId :: k in table && byId[k].ToDict() == table[k]
    {
      assert AccountKey(rows[i]) == all[i].id;
      byId := byId[all[i].id := all[i]];
    }
    ListingCoversKeys(rows, table, AccountKey);
    SnapshotIsTable(byId, table);
  }

  lemma SnapshotIsTable(byId: map<string, Account>, table: map<string, AccountRow>)
    requires forall k | k in byId :: k in table && byId[k].ToDict() == table[k]
    requires forall k | k in table :: k in byId
    ensures Snapshot(byId) == table
  {
  }

  /**
    * `approve_transaction(transaction_id)`: fetch the transaction and all
    * accounts, execute it, and when it succeeds save its source and
    * destination accounts and then the transaction itself.
    */
  method ApproveTransaction(db: Database, id: string) returns (ok: bool)
    requires db.Valid()
    modifies db
    ensures db.Valid()
    ensures var r := Approval(old(Books(db.accounts, db.transactions)), id);
      && ok == r.Some?
      && Books(db.accounts, db.transactions) == (if ok then r.value else old(Books(db.accounts, db.transactions)))
    ensures db.debts == old(db.debts) && db.subscriptions == old(db.subscriptions)
  {
    ghost var before := Books(db.accounts, db.transactions);
    var t := db.GetTransaction(id);
    if t == null {
      return false;
    }
    var row := t.ToDict();
    var all := db.GetAllAccounts();
    var accounts := AccountsById(all, db.accounts);
    ok := t.Execute(accounts);
    if ok {
      SaveNamedAccounts(db, accounts, row, before.accounts);
      var _ := db.SaveTransaction(t);
    }
  }

  /** The two `save_account` calls after a successful `execute`: the named accounts, as the objects now hold them. */
  method SaveNamedAccounts(db: Database, accounts: map<string, Account>, t: TransactionRow,
                           ghost before: map<string, AccountRow>)
    requires db.Valid() && db.accounts == before && ExecuteOn(t, before).Some?
    requires IndexedById(accounts) && Snapshot(accounts) == ExecuteOn(t, before).value
    modifies db
    ensures db.Valid() && db.accounts == ExecuteOn(t, before).value
    ensures db.transactions == old(db.transactions) && db.debts == old(db.debts)
    ensures db.subscriptions == old(db.subscriptions)
  {
    ghost var after := ExecuteOn(t, before).value;
    SavedNamed(t, before);
    assert accounts.Keys == after.Keys;
    if Truthy(t.fromAccountId) && t.fromAccountId.value in accounts {
      var k := t.fromAccountId.value;
      assert accounts[k].id == k && accounts[k].ToDict() == after[k];
      var _ := db.SaveAccount(accounts[k]);
    }
    ghost var src := db.accounts;
    assert src == if Truthy(t.fromAccountId) && t.fromAccountId.value in after
                  then before[t.fromAccountId.value := after[t.fromAccountId.value]] else before;
    if Truthy(t.toAccountId) && t.toAccountId.value in accounts {
      var k := t.toAccountId.value;
      assert accounts[k].id == k && accounts[k].ToDict() == after[k];
      var _ := db.SaveAccount(accounts[k]);
    }
    assert db.accounts == if Truthy(t.toAccountId) && t.toAccountId.value in after
                          then src[t.toAccountId.value := after[t.toAccountId.value]] else src;
  }

  // ----- Reconciling an account -----

  const ReconciliationNote: string := "Balance reconciliation adjustment"

  /**
    * The completed adjustment that books a reconciliation difference:
    * `abs(adjustment)` out of the account when the balance went down, into
    * it when the balance went up.
    */
  function AdjustmentRow(accountId: string, adjustment: int, today: Date, freshId: Id): TransactionRow
  {
    TransactionRow(freshId, IsoFormat(today), if adjustment < 0 then -adjustment else adjustment,
                   ReconciliationNote, Adjustment,
                   if adjustment < 0 then Some(accountId) else None,
                   if adjustment > 0 then Some(accountId) else None,
                   Completed, None)
  }

  /** What an adjustment row adds to the account it names: its amount in, or its amount out. */
  function Booked(t: TransactionRow): int
  {
    (if t.toAccountId.Some? then t.amount else 0) - (if t.fromAccountId.Some? then t.amount else 0)
  }

  /**
    * The books after reconciling the account `accountId` to `reported`: the
    * account holds the reported balance and, when it differs from the stored
    * one, the difference is recorded under the new id; `None` when no account
    * is selected or none is stored under that id, and nothing is saved.
    */
  function Reconciliation(b: Books, accountId: Option<string>, reported: int, today: Date, freshId: Id): Option<Books>
  {
    if !Truthy(accountId) || accountId.value !in b.accounts then None
    else
      var k := accountId.value;
      var adjustment := reported - b.accounts[k].balance;
      Some(Books(b.accounts[k := b.accounts[k].(balance := reported)],
                 if adjustment != 0 then b.transactions[freshId := AdjustmentRow(k, adjustment, today, freshId)]
                 else b.transactions))
  }

  /**
    * A reconciliation leaves the account holding the reported balance and
    * every other account as it was; the stored balance plus what the new
    * adjustment books is the reported balance, and no adjustment is
    * recorded when they already agree.
    */
  lemma ReconciliationEffect(b: Books, accountId: Option<string>, reported: int, today: Date, freshId: Id)
    ensures var r := Reconciliation(b, accountId, reported, today, freshId);
      && (r.Some? <==> Truthy(accountId) && accountId.value in b.accounts)
      && (r.Some? ==>
            var k := accountId.value;
            var old_balance := b.accounts[k].balance;
            && r.value.accounts == b.accounts[k := b.accounts[k].(balance := reported)]
            && (old_balance == reported ==> r.value.transactions == b.transactions)
            && (old_balance != reported ==>
                  && r.value.transactions == b.transactions[freshId := r.value.transactions[freshId]]
                  && r.value.transactions[freshId].transactionType == Adjustment
                  && r.value.transactions[freshId].status == Completed
                  && r.value.transactions[freshId].amount > 0
                  && Names(r.value.transactions[freshId], k)
                  && old_balance + Booked(r.value.transactions[freshId]) == reported))
  {
  }

  /** Reconciling again to the same balance changes nothing and books nothing. */
  lemma ReconciliationIdempotent(b: Books, accountId: Option<string>, reported: int, today: Date, freshId: Id,
                                 laterToday: Date, laterId: Id)
    requires Reconciliation(b, accountId, reported, today, freshId).Some?
    ensures var r := Reconciliation(b, accountId, reported, today, freshId).value;
      Reconciliation(r, accountId, reported, laterToday, laterId) == Some(r)
  {
    var k := accountId.value;
    var r := Reconciliation(b, accountId, reported, today, freshId).value;
    assert r.accounts[k := r.accounts[k].(balance := reported)] == r.accounts;
  }

  /**
    * The adjustment is recorded as already completed, so approving it is
    * refused and the difference is never applied to the balance a second time.
    */
  lemma AdjustmentNeverExecutes(b: Books, accountId: Option<string>, reported: int, today: Date, freshId: Id)
    requires Reconciliation(b, accountId, reported, today, freshId).Some?
    requires b.accounts[accountId.value].balance != reported
    ensures Approval(Reconciliation(b, accountId, reported, today, freshId).value, freshId).None?
  {
  }

  /**
    * `perform_reconciliation`: with an account selected and stored, set its
    * balance to the reported one, save a completed adjustment for a non-zero
    * difference, then save the account.
    */
  method ReconcileAccount(db: Database, accountId: Option<string>, reported: int, today: Date, freshId: Id)
    returns (done: bool)
    requires db.Valid()
    modifies db
    ensures db.Valid()
    ensures var r := Reconciliation(old(Books(db.accounts, db.transactions)), accountId, reported, today, freshId);
      && done == r.Some?
      && Books(db.accounts, db.transactions) == (if done then r.value else old(Books(db.accounts, db.transactions)))
    ensures db.debts == old(db.debts) && db.subscriptions == old(db.subscriptions)
  {
    ghost var before := Books(db.accounts, db.transactions);
    if !Truthy(accountId) {
      return false;
    }
    var account := db.GetAccount(accountId.value);
    if account == null {
      return false;
    }
    ghost var r := Reconciliation(before, accountId, reported, today, freshId).value;
    assert account.id == accountId.value;
    var adjustment := account.ReconcileBalance(reported);
    assert account.ToDict() == r.accounts[account.id];
    if adjustment != 0 {
      var t := new Transaction("", freshId, today, if adjustment < 0 then -adjustment else adjustment,
                               ReconciliationNote, Adjustment,
                               if adjustment < 0 then Some(account.id) else None,
                               if adjustment > 0 then Some(account.id) else None,
                               Completed, None);
      assert t.ToDict() == AdjustmentRow(account.id, adjustment, today, freshId);
      var _ := db.SaveTransaction(t);
    }
    assert db.transactions == r.transactions;
    var _ := db.SaveAccount(account);
    done := true;
  }
}
