/** Every operation issued under its service's guarantee keeps `StoreInv`. */
module StorePreservation {
  import opened Rows
  import opened Operations
  import opened LedgerViews
  import opened StoreInvariant
  import JsNumber

  // ---- Operations that leave ledger, outbox and balances alone ----

  lemma NoEntriesNoBalance(ledger: seq<LedgerEntry>, wallets: map<Id, Wallet>, walletId: Id)
    requires EntriesOk(ledger, wallets) && walletId !in wallets
    ensures LastBalance(ledger, walletId) == 0
  {
    LastBalanceIsCommitted(ledger, walletId);
    assert forall i :: 0 <= i < |ledger| ==> EntryOk(ledger[i], wallets);
  }

  lemma NewWalletUnique(wallets: map<Id, Wallet>, id: Id, row: Wallet)
    requires WalletsUnique(wallets)
    requires forall w :: w in wallets ==>
      !(wallets[w].userId == row.userId && wallets[w].currency == row.currency) && wallets[w].tag != row.tag
    ensures WalletsUnique(wallets[id := row])
  {
  }

  lemma EntriesOkGrow(ledger: seq<LedgerEntry>, before: map<Id, Wallet>, after: map<Id, Wallet>)
    requires EntriesOk(ledger, before) && WalletsGrow(before, after)
    ensures EntriesOk(ledger, after)
  {
    forall i | 0 <= i < |ledger|
      ensures EntryOk(ledger[i], after)
    {
      assert EntryOk(ledger[i], before);
    }
  }

  /** Posted rows stay posted when nothing about the rows themselves changes. */
  lemma TransfersStayPosted(a: Db, b: Db)
    requires Grows(a, b) && a.transfers == b.transfers && TransfersPosted(a)
    ensures TransfersPosted(b)
  {
    EvidenceKept(a, b);
  }

  lemma DepositsStayPosted(a: Db, b: Db)
    requires Grows(a, b) && a.transactions == b.transactions && DepositsPosted(a)
    ensures DepositsPosted(b)
  {
    EvidenceKept(a, b);
  }

  lemma InsertedWallet(db: Db, id: Id, userId: Id, currency: string, tag: string, d: Db)
    requires WalletsUnique(db.wallets) && EntriesOk(db.ledger, db.wallets) && BalancesMatch(db.wallets, db.ledger)
    requires InsertWallet(db, id, userId, currency, tag) == Ok(d)
    ensures d == db.(wallets := db.wallets[id := Wallet(userId, currency, 0, tag)])
    ensures WalletsUnique(d.wallets) && EntriesOk(d.ledger, d.wallets) && BalancesMatch(d.wallets, d.ledger)
  {
    var row := Wallet(userId, currency, 0, tag);
    assert d == db.(wallets := db.wallets[id := row]);
    assert forall w :: w in db.wallets && db.wallets[w].userId == userId ==> !Owns(db.wallets, w, userId, currency);
    NewWalletUnique(db.wallets, id, row);
    hide WalletsUnique;
    NoEntriesNoBalance(db.ledger, db.wallets, id);
    EntriesOkGrow(db.ledger, db.wallets, d.wallets);
  }

  lemma InsertWalletKeeps(db: Db, id: Id, userId: Id, currency: string, tag: string, d: Db)
    requires StoreInv(db) && ColonFree(userId) && InsertWallet(db, id, userId, currency, tag) == Ok(d)
    ensures StoreInv(d)
  {
    hide WalletsUnique, TransactionsUnique, TransfersUnique, LedgerUnique, EntriesOk, BalancesMatch,
      DepositsPosted, TransfersPosted, LedgerExplained, TransferEventsMatch;
    EveryOpGrows(db, OpInsertWallet(id, userId, currency, tag));
    InsertedWallet(db, id, userId, currency, tag, d);
    hide Grows;
    TransfersStayPosted(db, d);
    DepositsStayPosted(db, d);
    LedgerStaysExplained(db, d);
  }

  lemma DepositSameRequest(ledger: seq<LedgerEntry>, a: Transaction, b: Transaction, wallets: map<Id, Wallet>)
    requires HasDeposit(ledger, a, wallets) && SameRequest(a, b)
    ensures HasDeposit(ledger, b, wallets)
  {
    var i :| 0 <= i < |ledger| && IsDepositOf(ledger[i], a, wallets);
    assert IsDepositOf(ledger[i], b, wallets);
  }

  /** A row update that completes nothing and forgets nothing. */
  lemma TransactionPutKeeps(db: Db, id: Id, row: Transaction, d: Db)
    requires StoreInv(db) && d == db.(transactions := db.transactions[id := row])
    requires row.amount >= 1
    requires id in db.transactions ==> TransactionKept(db.transactions[id], row)
    requires row.status == Completed ==> id in db.transactions && db.transactions[id].status == Completed
    requires TransactionsUnique(d.transactions)
    ensures StoreInv(d)
  {
    hide WalletsUnique, TransactionsUnique, TransfersUnique, LedgerUnique;
    TransfersStayPosted(db, d);
    LedgerStaysExplained(db, d);
    hide TransfersPosted, LedgerExplained, TransferEventsMatch;
    forall t | t in d.transactions && d.transactions[t].status == Completed
      ensures d.transactions[t].providerRef.Some? && HasDeposit(d.ledger, d.transactions[t], d.wallets)
    {
      DepositSameRequest(db.ledger, db.transactions[t], d.transactions[t], db.wallets);
    }
  }

  lemma TransactionRowKeeps(db: Db, op: Op, d: Db)
    requires StoreInv(db) && OpOk(db, op) && Apply(db, op) == Ok(d)
    requires op.OpCreateTransaction? || op.OpSetProviderRef? || op.OpFail?
    ensures StoreInv(d)
  {
    if d != db {
      assert op.id in d.transactions;
      var row := d.transactions[op.id];
      assert d == db.(transactions := db.transactions[op.id := row]);
      assert TransactionsUnique(d.transactions);
      TransactionPutKeeps(db, op.id, row, d);
    }
  }

  lemma NewTransferUnique(db: Db, id: Id, row: Transfer, d: Db)
    requires TransfersUnique(db.transfers) && CreateTransfer(db, id, row) == Ok(d)
    ensures TransfersUnique(d.transfers)
  {
    assert forall t :: t in db.transfers ==> db.transfers[t].key != row.key;
  }

  lemma NewTransferEvents(db: Db, id: Id, row: Transfer, d: Db)
    requires TransferEventsMatch(db.outbox, db.transfers) && row.status == Pending
    requires CreateTransfer(db, id, row) == Ok(d)
    ensures TransferEventsMatch(d.outbox, d.transfers)
  {
    assert forall t :: IsCompleted(d.transfers, t) <==> IsCompleted(db.transfers, t);
  }

  lemma NewTransferPosted(db: Db, id: Id, row: Transfer, d: Db)
    requires TransfersPosted(db) && row.status == Pending && CreateTransfer(db, id, row) == Ok(d)
    ensures TransfersPosted(d)
  {
  }

  lemma CreateTransferKeeps(db: Db, id: Id, row: Transfer, d: Db)
    requires StoreInv(db) && row.amount >= 1 && row.status == Pending && CreateTransfer(db, id, row) == Ok(d)
    ensures StoreInv(d)
  {
    hide WalletsUnique, TransactionsUnique, TransfersUnique, LedgerUnique;
    hide TransfersPosted, LedgerExplained, TransferEventsMatch;
    EveryOpGrows(db, OpCreateTransfer(id, row));
    NewTransferUnique(db, id, row, d);
    NewTransferEvents(db, id, row, d);
    NewTransferPosted(db, id, row, d);
    LedgerStaysExplained(db, d);
  }

  // ---- Appending to the ledger ----

  lemma AppendUnique(ledger: seq<LedgerEntry>, e: LedgerEntry)
    requires LedgerUnique(ledger) && !LedgerKeyUsed(ledger, e.key)
    ensures LedgerUnique(ledger + [e])
  {
  }

  lemma AppendEntryOk(ledger: seq<LedgerEntry>, before: map<Id, Wallet>, after: map<Id, Wallet>, e: LedgerEntry)
    requires EntriesOk(ledger, before) && WalletsGrow(before, after) && EntryOk(e, after)
    ensures EntriesOk(ledger + [e], after)
  {
    EntriesOkGrow(ledger, before, after);
  }

  function WithBalance(wallets: map<Id, Wallet>, walletId: Id, balance: int): map<Id, Wallet>
    requires walletId in wallets
  {
    wallets[walletId := wallets[walletId].(balance := balance)]
  }

  lemma AppendBalance(wallets: map<Id, Wallet>, ledger: seq<LedgerEntry>, e: LedgerEntry)
    requires BalancesMatch(wallets, ledger) && e.walletId in wallets
    ensures BalancesMatch(WithBalance(wallets, e.walletId, e.balanceAfter), ledger + [e])
  {
    forall w | w in wallets
      ensures LastBalance(ledger + [e], w) == if w == e.walletId then e.balanceAfter else LastBalance(ledger, w)
    {
      LastBalanceSnoc(ledger, e, w);
    }
  }

  lemma BalanceKeepsUnique(wallets: map<Id, Wallet>, walletId: Id, balance: int)
    requires WalletsUnique(wallets) && walletId in wallets
    ensures WalletsUnique(WithBalance(wallets, walletId, balance))
  {
  }

  lemma CompletionKeepsUnique(transactions: map<Id, Transaction>, id: Id)
    requires TransactionsUnique(transactions)
    ensures TransactionsUnique(CompleteTransaction(transactions, id))
  {
  }

  // ---- Settlement ----

  lemma SettleEntries(db: Db, walletId: Id, txId: Id, tx: Transaction, d: Db)
    requires IndexesHold(db) && RowsOk(db) && EntriesOk(db.ledger, db.wallets) && BalancesMatch(db.wallets, db.ledger)
    requires Settleable(db, walletId, txId, tx) && Apply(db, OpSettle(walletId, txId, tx)) == Ok(d)
    ensures IndexesHold(d) && RowsOk(d) && EntriesOk(d.ledger, d.wallets) && BalancesMatch(d.wallets, d.ledger)
  {
    hide WalletsUnique, LedgerUnique, TransactionsUnique, TransfersUnique, EntriesOk, BalancesMatch;
    var e := d.ledger[|db.ledger|];
    assert tx.amount >= 1 by { assert db.transactions[txId].amount >= 1; }
    assert d.wallets == WithBalance(db.wallets, walletId, e.balanceAfter);
    assert d.ledger == db.ledger + [e];
    AppendUnique(db.ledger, e);
    AppendEntryOk(db.ledger, db.wallets, d.wallets, e);
    AppendBalance(db.wallets, db.ledger, e);
    BalanceKeepsUnique(db.wallets, walletId, e.balanceAfter);
    CompletionKeepsUnique(db.transactions, txId);
  }

  lemma SettlePosts(db: Db, walletId: Id, txId: Id, tx: Transaction, d: Db)
    requires DepositsPosted(db) && Settleable(db, walletId, txId, tx)
    requires Apply(db, OpSettle(walletId, txId, tx)) == Ok(d)
    ensures DepositsPosted(d)
  {
    EveryOpGrows(db, OpSettle(walletId, txId, tx));
    EvidenceKept(db, d);
    assert IsDepositOf(d.ledger[|db.ledger|], d.transactions[txId], d.wallets);
    forall t | t in d.transactions && d.transactions[t].status == Completed
      ensures d.transactions[t].providerRef.Some? && HasDeposit(d.ledger, d.transactions[t], d.wallets)
    {
      assert t != txId ==> d.transactions[t] == db.transactions[t];
    }
  }

  lemma SettleExplained(db: Db, walletId: Id, txId: Id, tx: Transaction, d: Db)
    requires LedgerExplained(db) && Settleable(db, walletId, txId, tx)
    requires Apply(db, OpSettle(walletId, txId, tx)) == Ok(d)
    ensures LedgerExplained(d)
  {
    EveryOpGrows(db, OpSettle(walletId, txId, tx));
    assert Settled(d, d.ledger[|db.ledger|], txId);
    LedgerStaysExplained(db, d);
  }

  lemma SettleKeeps(db: Db, walletId: Id, txId: Id, tx: Transaction, d: Db)
    requires StoreInv(db) && Settleable(db, walletId, txId, tx)
    requires Apply(db, OpSettle(walletId, txId, tx)) == Ok(d)
    ensures StoreInv(d)
  {
    hide IndexesHold, RowsOk, EntriesOk, BalancesMatch, DepositsPosted, TransfersPosted, LedgerExplained;
    EveryOpGrows(db, OpSettle(walletId, txId, tx));
    SettleEntries(db, walletId, txId, tx, d);
    SettlePosts(db, walletId, txId, tx, d);
    SettleExplained(db, walletId, txId, tx, d);
    TransfersStayPosted(db, d);
    TransferIdsSnoc(db.outbox, DepositEvent(walletId, tx));
  }

  // ---- Transfer ----

  lemma TransferStaysNonNegative(toBalance: int, amount: int)
    requires toBalance >= 0 && amount >= 1
    ensures JsNumber.Add(JsNumber.Number(toBalance), amount) >= 0
  {
    JsNumber.RoundKeepsSign(toBalance);
    JsNumber.RoundKeepsSign(JsNumber.Number(toBalance) + amount);
  }

  /** The parts of a committed transfer. */
  lemma ExecuteShape(db: Db, id: Id, row: Transfer, fromId: Id, toId: Id, d: Db)
    requires RowsOk(db) && Executable(db, id, row, fromId, toId)
    requires Apply(db, OpExecute(id, row, fromId, toId)) == Ok(d)
    ensures exists senderNew, receiverNew ::
      var debit, credit := DebitEntry(row, fromId, senderNew), CreditEntry(row, toId, receiverNew);
      senderNew >= 0 && receiverNew >= 0 && row.amount >= 1 && fromId != toId
      && d.wallets == WithBalance(WithBalance(db.wallets, fromId, senderNew), toId, receiverNew)
      && d.ledger == db.ledger + [debit] + [credit]
      && !LedgerKeyUsed(db.ledger, debit.key) && !LedgerKeyUsed(db.ledger, credit.key)
    ensures d.transactions == db.transactions
    ensures d.transfers == db.transfers[id := row.(status := Completed)]
    ensures d.outbox == db.outbox + [TransferEvent(id, row)]
  {
    var senderNew := JsNumber.Sub(JsNumber.Number(db.wallets[fromId].balance), row.amount);
    var receiverNew := JsNumber.Add(JsNumber.Number(db.wallets[toId].balance), row.amount);
    assert db.transfers[id].amount >= 1;
    TransferStaysNonNegative(db.wallets[toId].balance, row.amount);
    assert senderNew >= 0
      && d.wallets == WithBalance(WithBalance(db.wallets, fromId, senderNew), toId, receiverNew)
      && d.ledger == db.ledger + [DebitEntry(row, fromId, senderNew)] + [CreditEntry(row, toId, receiverNew)];
  }

  lemma ExecuteUnique(ledger: seq<LedgerEntry>, debit: LedgerEntry, credit: LedgerEntry)
    requires LedgerUnique(ledger) && debit.key != credit.key
    requires !LedgerKeyUsed(ledger, debit.key) && !LedgerKeyUsed(ledger, credit.key)
    ensures LedgerUnique(ledger + [debit] + [credit])
  {
    AppendUnique(ledger, debit);
    AppendUnique(ledger + [debit], credit);
  }

  /** Two wallets of the transfer's currency, the ledger entries appended one after the other. */
  lemma TwoEntries(wallets: map<Id, Wallet>, ledger: seq<LedgerEntry>, row: Transfer, fromId: Id, toId: Id,
          senderNew: nat, receiverNew: nat)
    requires EntriesOk(ledger, wallets) && BalancesMatch(wallets, ledger) && row.amount >= 1
    requires Owns(wallets, fromId, row.fromUserId, row.currency) && Owns(wallets, toId, row.toUserId, row.currency)
    ensures var after := WithBalance(WithBalance(wallets, fromId, senderNew), toId, receiverNew);
            var entries := ledger + [DebitEntry(row, fromId, senderNew)] + [CreditEntry(row, toId, receiverNew)];
            EntriesOk(entries, after) && BalancesMatch(after, entries)
  {
    hide EntriesOk, BalancesMatch;
    var debit, credit := DebitEntry(row, fromId, senderNew), CreditEntry(row, toId, receiverNew);
    var w1 := WithBalance(wallets, fromId, senderNew);
    AppendEntryOk(ledger, wallets, w1, debit);
    AppendEntryOk(ledger + [debit], w1, WithBalance(w1, toId, receiverNew), credit);
    AppendBalance(wallets, ledger, debit);
    AppendBalance(w1, ledger + [debit], credit);
  }

  lemma ExecuteEntries(db: Db, id: Id, row: Transfer, fromId: Id, toId: Id, d: Db)
    requires WalletsUnique(db.wallets) && LedgerUnique(db.ledger)
    requires RowsOk(db) && EntriesOk(db.ledger, db.wallets) && BalancesMatch(db.wallets, db.ledger)
    requires Executable(db, id, row, fromId, toId) && Apply(db, OpExecute(id, row, fromId, toId)) == Ok(d)
    ensures WalletsUnique(d.wallets) && LedgerUnique(d.ledger)
    ensures EntriesOk(d.ledger, d.wallets) && BalancesMatch(d.wallets, d.ledger)
    ensures forall w :: w in d.wallets ==> ColonFree(d.wallets[w].userId) && d.wallets[w].balance >= 0
  {
    ExecuteShape(db, id, row, fromId, toId, d);
    hide Apply, LedgerUnique, WalletsUnique, EntriesOk, BalancesMatch, LedgerKeyUsed;
    var senderNew, receiverNew :|
      var debit, credit := DebitEntry(row, fromId, senderNew), CreditEntry(row, toId, receiverNew);
      senderNew >= 0 && receiverNew >= 0 && row.amount >= 1 && fromId != toId
      && d.wallets == WithBalance(WithBalance(db.wallets, fromId, senderNew), toId, receiverNew)
      && d.ledger == db.ledger + [debit] + [credit]
      && !LedgerKeyUsed(db.ledger, debit.key) && !LedgerKeyUsed(db.ledger, credit.key);
    SuffixedKeysInjective(row.key, row.key);
    ExecuteUnique(db.ledger, DebitEntry(row, fromId, senderNew), CreditEntry(row, toId, receiverNew));
    TwoEntries(db.wallets, db.ledger, row, fromId, toId, senderNew, receiverNew);
    BalanceKeepsUnique(db.wallets, fromId, senderNew);
    BalanceKeepsUnique(WithBalance(db.wallets, fromId, senderNew), toId, receiverNew);
  }

  lemma ExecutePosts(db: Db, id: Id, row: Transfer, fromId: Id, toId: Id, d: Db)
    requires RowsOk(db) && TransfersPosted(db)
    requires Executable(db, id, row, fromId, toId) && Apply(db, OpExecute(id, row, fromId, toId)) == Ok(d)
    ensures TransfersPosted(d)
  {
    EveryOpGrows(db, OpExecute(id, row, fromId, toId));
    EvidenceKept(db, d);
    ExecuteShape(db, id, row, fromId, toId, d);
    var done := d.transfers[id];
    assert IsDebitOf(d.ledger[|db.ledger|], done, d.wallets);
    assert IsCreditOf(d.ledger[|db.ledger| + 1], done, d.wallets);
    forall t | t in d.transfers && d.transfers[t].status == Completed
      ensures HasDebit(d.ledger, d.transfers[t], d.wallets) && HasCredit(d.ledger, d.transfers[t], d.wallets)
    {
      assert t != id ==> d.transfers[t] == db.transfers[t];
    }
  }

  lemma ExecuteExplained(db: Db, id: Id, row: Transfer, fromId: Id, toId: Id, d: Db)
    requires RowsOk(db) && LedgerExplained(db)
    requires Executable(db, id, row, fromId, toId) && Apply(db, OpExecute(id, row, fromId, toId)) == Ok(d)
    ensures LedgerExplained(d)
  {
    EveryOpGrows(db, OpExecute(id, row, fromId, toId));
    ExecuteShape(db, id, row, fromId, toId, d);
    assert Debited(d, d.ledger[|db.ledger|], id);
    assert Credited(d, d.ledger[|db.ledger| + 1], id);
    LedgerStaysExplained(db, d);
  }

  lemma ExecuteEvents(db: Db, id: Id, row: Transfer, d: Db)
    requires TransferEventsMatch(db.outbox, db.transfers)
    requires id in db.transfers && db.transfers[id] == row && row.status == Pending
    requires d.transfers == db.transfers[id := row.(status := Completed)]
    requires d.outbox == db.outbox + [TransferEvent(id, row)]
    ensures TransferEventsMatch(d.outbox, d.transfers)
  {
    TransferIdsSnoc(db.outbox, TransferEvent(id, row));
    assert !IsCompleted(db.transfers, id);
    forall t
      ensures t in TransferIds(d.outbox) <==> IsCompleted(d.transfers, t)
    {
      assert t in TransferIds(d.outbox) <==> t in TransferIds(db.outbox) || t == id;
    }
  }

  lemma ExecuteKeeps(db: Db, id: Id, row: Transfer, fromId: Id, toId: Id, d: Db)
    requires StoreInv(db) && Executable(db, id, row, fromId, toId)
    requires Apply(db, OpExecute(id, row, fromId, toId)) == Ok(d)
    ensures StoreInv(d)
  {
    hide WalletsUnique, LedgerUnique, TransactionsUnique;
    hide EntriesOk, BalancesMatch, DepositsPosted, TransfersPosted, LedgerExplained, TransferEventsMatch;
    EveryOpGrows(db, OpExecute(id, row, fromId, toId));
    ExecuteShape(db, id, row, fromId, toId, d);
    ExecuteEntries(db, id, row, fromId, toId, d);
    ExecutePosts(db, id, row, fromId, toId, d);
    ExecuteExplained(db, id, row, fromId, toId, d);
    ExecuteEvents(db, id, row, d);
    DepositsStayPosted(db, d);
    assert TransfersUnique(d.transfers);
  }

  lemma OpKeepsStore(db: Db, op: Op, d: Db)
    requires StoreInv(db) && OpOk(db, op) && Apply(db, op) == Ok(d)
    ensures StoreInv(d)
  {
    hide StoreInv;
    match op
    case OpInsertWallet(id, userId, currency, tag) => InsertWalletKeeps(db, id, userId, currency, tag, d);
    case OpCreateTransaction(_, _, _, _, _) => TransactionRowKeeps(db, op, d);
    case OpSetProviderRef(_, _) => TransactionRowKeeps(db, op, d);
    case OpFail(_, _) => TransactionRowKeeps(db, op, d);
    case OpSettle(walletId, txId, tx) => SettleKeeps(db, walletId, txId, tx, d);
    case OpCreateTransfer(id, row) => CreateTransferKeeps(db, id, row, d);
    case OpExecute(id, row, fromId, toId) => ExecuteKeeps(db, id, row, fromId, toId, d);
  }
}
