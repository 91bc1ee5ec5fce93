/** The database as the repositories see it: mutable tables with unique indexes, row locks and
    rollback. */
module Store {
  import opened Rows
  import opened Operations
  import opened StoreInvariant
  import opened StorePreservation

  predicate SameUserAndCurrency(a: Wallet, b: Wallet) {
    a.userId == b.userId && a.currency == b.currency
  }

  class Database {
    var wallets: map<Id, Wallet>
    var transactions: map<Id, Transaction>
    var transfers: map<Id, Transfer>
    var ledger: seq<LedgerEntry>
    var outbox: seq<OutboxEvent>
    var lockLog: seq<Id>   // wallet rows in the order their write locks were taken

    ghost function Contents(): Db
      reads this
    {
      Db(wallets, transactions, transfers, ledger, outbox)
    }

    /** The unique indexes hold. */
    ghost predicate Valid()
      reads this
    {
      IndexesHold(Contents())
    }

    constructor ()
      ensures Valid() && Contents() == EMPTY_DB && lockLog == []
    {
      wallets, transactions, transfers, ledger, outbox, lockLog := map[], map[], map[], [], [], [];
    }

    method Save() returns (saved: Db)
      ensures saved == Contents()
    {
      saved := Db(wallets, transactions, transfers, ledger, outbox);
    }

    /** Rollback to the contents at the start of the transaction. */
    method Restore(saved: Db)
      requires IndexesHold(saved)
      modifies this`wallets, this`transactions, this`transfers, this`ledger, this`outbox
      ensures Valid() && Contents() == saved
    {
      wallets, transactions, transfers := saved.wallets, saved.transactions, saved.transfers;
      ledger, outbox := saved.ledger, saved.outbox;
    }

    /** `findOne` with a pessimistic write lock: the row as stored, or null. */
    method LockWallet(id: Id) returns (row: Option<Wallet>)
      modifies this`lockLog
      ensures row == if id in wallets then Some(wallets[id]) else None
      ensures lockLog == old(lockLog) + if id in wallets then [id] else []
    {
      if id in wallets {
        lockLog := lockLog + [id];
        row := Some(wallets[id]);
      } else {
        row := None;
      }
    }

    method UpdateBalance(id: Id, balance: int)
      requires Valid() && id in wallets
      modifies this`wallets
      ensures Valid() && wallets == WithBalance(old(wallets), id, balance)
    {
      BalanceKeepsUnique(wallets, id, balance);
      wallets := wallets[id := wallets[id].(balance := balance)];
    }

    method InsertLedger(e: LedgerEntry) returns (ok: bool)
      requires Valid()
      modifies this`ledger
      ensures Valid() && ok == !LedgerKeyUsed(old(ledger), e.key)
      ensures ledger == if ok then old(ledger) + [e] else old(ledger)
    {
      ok := !exists i :: 0 <= i < |ledger| && ledger[i].key == e.key;
      if ok {
        AppendUnique(ledger, e);
        ledger := ledger + [e];
      }
    }

    method InsertOutbox(e: OutboxEvent)
      requires Valid()
      modifies this`outbox
      ensures Valid() && outbox == old(outbox) + [e]
    {
      outbox := outbox + [e];
    }

    method InsertWalletRow(id: Id, row: Wallet) returns (ok: bool)
      requires Valid() && row.balance == 0
      modifies this`wallets
      ensures Valid()
      ensures InsertWallet(old(Contents()), id, row.userId, row.currency, row.tag)
           == if ok then Ok(Contents()) else Err(DuplicateKey)
      ensures !ok ==> wallets == old(wallets)
    {
      ghost var db := Contents();
      ok := id !in wallets
        && forall w :: w in wallets ==> !SameUserAndCurrency(wallets[w], row) && wallets[w].tag != row.tag;
      if ok {
        NewWalletUnique(wallets, id, row);
        assert forall w :: !Owns(db.wallets, w, row.userId, row.currency);
        wallets := wallets[id := row];
      } else if id !in wallets {
        ghost var w :| w in wallets && (SameUserAndCurrency(wallets[w], row) || wallets[w].tag == row.tag);
        assert wallets[w].tag != row.tag ==> Owns(db.wallets, w, row.userId, row.currency);
      }
    }

    method InsertTransaction(id: Id, row: Transaction) returns (ok: bool)
      requires Valid()
      modifies this`transactions
      ensures Valid() && ok == (id !in old(transactions) && !TransactionKeyUsed(old(Contents()), row.key))
      ensures transactions == if ok then old(transactions)[id := row] else old(transactions)
    {
      ok := id !in transactions && !exists t :: t in transactions && transactions[t].key == row.key;
      if ok {
        transactions := transactions[id := row];
      }
    }

    /** An update by id; absent rows are left absent. */
    method UpdateTransaction(id: Id, status: Option<Status>, providerRef: Option<string>, reason: Option<string>)
      requires Valid()
      modifies this`transactions
      ensures Valid() && id !in old(transactions) ==> transactions == old(transactions)
      ensures id in old(transactions) ==>
        var row := old(transactions)[id];
        transactions == old(transactions)[id := row.(
          status := if status.Some? then status.value else row.status,
          providerRef := if providerRef.Some? then providerRef else row.providerRef,
          failureReason := if reason.Some? then reason else row.failureReason)]
      ensures Valid()
    {
      if id in transactions {
        var row := transactions[id];
        transactions := transactions[id := row.(
          status := if status.Some? then status.value else row.status,
          providerRef := if providerRef.Some? then providerRef else row.providerRef,
          failureReason := if reason.Some? then reason else row.failureReason)];
      }
    }

    method InsertTransfer(id: Id, row: Transfer) returns (ok: bool)
      requires Valid()
      modifies this`transfers
      ensures Valid() && ok == (id !in old(transfers) && !TransferKeyUsed(old(Contents()), row.key))
      ensures transfers == if ok then old(transfers)[id := row] else old(transfers)
    {
      ok := id !in transfers && !exists t :: t in transfers && transfers[t].key == row.key;
      if ok {
        transfers := transfers[id := row];
      }
    }

    method SetTransferCompleted(id: Id)
      requires Valid()
      modifies this`transfers
      ensures Valid() && transfers == CompleteTransfer(old(transfers), id)
    {
      if id in transfers {
        transfers := transfers[id := transfers[id].(status := Completed)];
      }
    }
  }
}
