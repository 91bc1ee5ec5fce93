/** The repository classes, statement by statement; each is proved to do exactly its atomic
    operation, or nothing. */
module Repositories {
  import opened Rows
  import opened Operations
  import opened StoreInvariant
  import opened StorePreservation
  import opened Store
  import opened Requests
  import JsNumber

  class WalletRepository {
    const db: Database

    constructor (db: Database)
      ensures this.db == db
    {
      this.db := db;
    }

    method FindByUserIdAndCurrency(userId: Id, currency: string) returns (r: Option<Id>)
      requires db.Valid()
      ensures r == FindWallet(db.Contents(), userId, currency)
    {
      if id :| id in db.wallets && db.wallets[id].userId == userId && db.wallets[id].currency == currency {
        assert Owns(db.wallets, id, userId, currency);
        r := Some(id);
      } else {
        assert forall id :: !Owns(db.wallets, id, userId, currency);
        r := None;
      }
    }

    method FindByWalletTag(tag: string) returns (r: Option<Id>)
      requires db.Valid()
      ensures r == FindByTag(db.Contents(), tag)
    {
      if id :| id in db.wallets && db.wallets[id].tag == tag {
        r := Some(id);
      } else {
        r := None;
      }
    }

    method FindTransactionByIdempotencyKey(key: string) returns (r: Option<Id>)
      ensures r.Some? <==> TransactionKeyUsed(db.Contents(), key)
      ensures r.Some? ==> r.value in db.transactions && db.transactions[r.value].key == key
    {
      if id :| id in db.transactions && db.transactions[id].key == key {
        r := Some(id);
      } else {
        r := None;
      }
    }

    method FindTransactionByProviderRef(providerRef: string) returns (r: Option<Id>)
      ensures IsByRef(db.Contents(), providerRef, r)
    {
      if id :| id in db.transactions && db.transactions[id].providerRef == Some(providerRef) {
        r := Some(id);
      } else {
        assert forall id :: !HasRef(db.Contents(), id, providerRef);
        r := None;
      }
    }

    method UpdateTransactionProviderRef(id: Id, providerRef: string)
      requires db.Valid()
      modifies db`transactions
      ensures db.Valid() && db.Contents() == SetProviderRef(old(db.Contents()), id, providerRef)
    {
      db.UpdateTransaction(id, None, Some(providerRef), None);
    }

    /** The existing wallet of the user and currency, or a new empty one. */
    method EnsureWalletRow(userId: Id, currency: string, id: Id, tag: string) returns (response: Response)
      requires db.Valid()
      modifies db`wallets
      ensures db.Valid() && (db.Contents(), response) == EnsureWallet(old(db.Contents()), userId, currency, id, tag)
    {
      var existing := FindByUserIdAndCurrency(userId, currency);
      if existing.Some? {
        return WalletRow(existing.value, db.wallets[existing.value]);
      }
      var row := Wallet(userId, currency, 0, tag);
      var ok := db.InsertWalletRow(id, row);
      response := if ok then WalletRow(id, row) else Thrown(DuplicateKey);
    }

    method CreateTransactionRow(id: Id, userId: Id, amount: int, currency: string, key: string) returns (ok: bool)
      requires db.Valid()
      modifies db`transactions
      ensures db.Valid()
      ensures CreateTransaction(old(db.Contents()), id, userId, amount, currency, key)
           == if ok then Ok(db.Contents()) else Err(DuplicateKey)
      ensures !ok ==> db.Contents() == old(db.Contents())
    {
      ok := db.InsertTransaction(id, Transaction(userId, amount, currency, key, Pending, None, None));
    }

    method Fail(id: Id, reason: string)
      requires db.Valid()
      modifies db`transactions
      ensures db.Valid() && db.Contents() == FailTransaction(old(db.Contents()), id, reason)
    {
      db.UpdateTransaction(id, Some(Failed), None, Some(reason));
    }

    /** The settlement transaction: its new contents and saved entry, or the error and a rollback. */
    method Settle(walletId: Id, txId: Id, tx: Transaction, kind: EntryKind, change: int, event: OutboxEvent)
      returns (r: Result<LedgerEntry>)
      requires db.Valid()
      modifies db
      ensures db.Valid()
      ensures db.lockLog == old(db.lockLog) + if walletId in old(db.wallets) then [walletId] else []
      ensures match SettleTransaction(old(db.Contents()), walletId, txId, tx, kind, change, event)
        case Ok(d) => db.Contents() == d && r == Ok(d.ledger[|old(db.ledger)|])
        case Err(e) => db.Contents() == old(db.Contents()) && r == Err(e)
    {
      var saved := db.Save();
      var wallet := db.LockWallet(walletId);
      if wallet.None? {
        db.Restore(saved);
        return Err(MissingRow);
      }
      var newBalance := JsNumber.Add(JsNumber.Number(wallet.value.balance), change);
      if newBalance < 0 {
        db.Restore(saved);
        return Err(InsufficientBalance);
      }
      db.UpdateBalance(walletId, newBalance);
      var entry := LedgerEntry(walletId, kind, tx.amount, wallet.value.currency, newBalance, tx.key);
      var ok := db.InsertLedger(entry);
      if !ok {
        db.Restore(saved);
        return Err(DuplicateKey);
      }
      db.UpdateTransaction(txId, Some(Completed), None, None);
      db.InsertOutbox(event);
      r := Ok(entry);
    }
  }

  class TransfersRepository {
    const db: Database

    constructor (db: Database)
      ensures this.db == db
    {
      this.db := db;
    }

    method FindByIdempotencyKey(key: string) returns (r: Option<Id>)
      ensures r.Some? <==> TransferKeyUsed(db.Contents(), key)
      ensures r.Some? ==> r.value in db.transfers && db.transfers[r.value].key == key
    {
      if id :| id in db.transfers && db.transfers[id].key == key {
        r := Some(id);
      } else {
        r := None;
      }
    }

    method CreateTransferRow(id: Id, row: Transfer) returns (ok: bool)
      requires db.Valid()
      modifies db`transfers
      ensures db.Valid()
      ensures CreateTransfer(old(db.Contents()), id, row) == if ok then Ok(db.Contents()) else Err(DuplicateKey)
      ensures !ok ==> db.Contents() == old(db.Contents())
    {
      ok := db.InsertTransfer(id, row);
    }

    /** The writes of a transfer whose checks have passed; false when a ledger key is taken, in
        which case the caller rolls back. */
    method Post(transferId: Id, row: Transfer, fromId: Id, toId: Id, senderNew: int, receiverNew: int,
            event: OutboxEvent)
      returns (ok: bool)
      requires db.Valid() && fromId in db.wallets && toId in db.wallets
      modifies db`wallets, db`transfers, db`ledger, db`outbox
      ensures db.Valid()
      ensures ok <==> !LedgerKeyUsed(old(db.ledger), OutKey(row.key)) && !LedgerKeyUsed(old(db.ledger), InKey(row.key))
      ensures ok ==>
        && db.wallets == WithBalance(WithBalance(old(db.wallets), fromId, senderNew), toId, receiverNew)
        && db.transfers == CompleteTransfer(old(db.transfers), transferId)
        && db.ledger == old(db.ledger) + [DebitEntry(row, fromId, senderNew)] + [CreditEntry(row, toId, receiverNew)]
        && db.outbox == old(db.outbox) + [event]
    {
      hide IndexesHold;
      db.UpdateBalance(fromId, senderNew);
      db.UpdateBalance(toId, receiverNew);
      SuffixedKeysInjective(row.key, row.key);
      CreditKeyAfterDebit(db.ledger, DebitEntry(row, fromId, senderNew), InKey(row.key));
      hide LedgerKeyUsed;
      ok := db.InsertLedger(DebitEntry(row, fromId, senderNew));
      if ok {
        ok := db.InsertLedger(CreditEntry(row, toId, receiverNew));
      }
      if ok {
        db.SetTransferCompleted(transferId);
        db.InsertOutbox(event);
      }
    }

    /** The transfer transaction: both rows are locked in id order before anything is decided;
        then its new contents, or the error and a rollback. */
    method Execute(transferId: Id, row: Transfer, fromId: Id, toId: Id, event: OutboxEvent) returns (r: Result<()>)
      requires db.Valid()
      modifies db
      ensures db.Valid()
      ensures var (first, second) := LockOrder(fromId, toId);
        db.lockLog == old(db.lockLog) + (if first in old(db.wallets) then [first] else [])
                      + (if second in old(db.wallets) then [second] else [])
      ensures match ExecuteTransfer(old(db.Contents()), transferId, row, fromId, toId, event)
        case Ok(d) => db.Contents() == d && r == Ok(())
        case Err(e) => db.Contents() == old(db.Contents()) && r == Err(e)
    {
      hide IndexesHold, LedgerKeyUsed, JsNumber.Add, JsNumber.Sub, JsNumber.Number;
      var saved := db.Save();
      var (walletIdFirst, walletIdSecond) := LockOrder(fromId, toId);
      LockOrderSorted(fromId, toId);
      var firstWallet := db.LockWallet(walletIdFirst);
      var secondWallet := db.LockWallet(walletIdSecond);
      var error := MissingRow;
      if firstWallet.Some? {
        var fromWallet := if walletIdFirst == fromId then firstWallet else secondWallet;
        var toWallet := if walletIdFirst == toId then firstWallet else secondWallet;
        if fromWallet.Some? {
          var senderNew := JsNumber.Sub(JsNumber.Number(fromWallet.value.balance), row.amount);
          if senderNew < 0 {
            error := InsufficientBalance;
          } else if toWallet.Some? {
            var receiverNew := JsNumber.Add(JsNumber.Number(toWallet.value.balance), row.amount);
            var ok := Post(transferId, row, fromId, toId, senderNew, receiverNew, event);
            if ok {
              return Ok(());
            }
            error := DuplicateKey;
          }
        }
      }
      db.Restore(saved);
      r := Err(error);
    }
  }

  lemma CreditKeyAfterDebit(ledger: seq<LedgerEntry>, debit: LedgerEntry, key: string)
    requires debit.key != key
    ensures LedgerKeyUsed(ledger + [debit], key) <==> LedgerKeyUsed(ledger, key)
  {
    if i :| 0 <= i < |ledger| && ledger[i].key == key {
      assert (ledger + [debit])[i].key == key;
    }
  }
}
