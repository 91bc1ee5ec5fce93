/** What holds of the database after every operation the services can commit, whatever the
    amounts: unique keys, non-negative balances equal to the last ledger entry, a one-to-one
    match between ledger entries and settled rows, and the transfer events. */
module StoreInvariant {
  import opened Rows
  import opened Operations
  import opened LedgerViews

  // ---- Unique indexes ----

  ghost predicate WalletsUnique(wallets: map<Id, Wallet>) {
    forall v, w :: v in wallets && w in wallets && v != w ==>
      !(wallets[v].userId == wallets[w].userId && wallets[v].currency == wallets[w].currency)
      && wallets[v].tag != wallets[w].tag
  }

  ghost predicate TransactionsUnique(transactions: map<Id, Transaction>) {
    forall s, t :: s in transactions && t in transactions && s != t ==> transactions[s].key != transactions[t].key
  }

  ghost predicate TransfersUnique(transfers: map<Id, Transfer>) {
    forall s, t :: s in transfers && t in transfers && s != t ==> transfers[s].key != transfers[t].key
  }

  ghost predicate LedgerUnique(ledger: seq<LedgerEntry>) {
    forall i, j :: 0 <= i < |ledger| && 0 <= j < |ledger| && i != j ==> ledger[i].key != ledger[j].key
  }

  ghost predicate IndexesHold(db: Db) {
    WalletsUnique(db.wallets) && TransactionsUnique(db.transactions)
    && TransfersUnique(db.transfers) && LedgerUnique(db.ledger)
  }

  // ---- Well-formed rows ----

  ghost predicate RowsOk(db: Db) {
    && (forall w :: w in db.wallets ==> ColonFree(db.wallets[w].userId) && db.wallets[w].balance >= 0)
    && (forall t :: t in db.transactions ==> db.transactions[t].amount >= 1)
    && (forall t :: t in db.transfers ==> db.transfers[t].amount >= 1)
  }

  predicate EntryOk(e: LedgerEntry, wallets: map<Id, Wallet>) {
    e.walletId in wallets && wallets[e.walletId].currency == e.currency && e.amount >= 1 && e.balanceAfter >= 0
  }

  ghost predicate EntriesOk(ledger: seq<LedgerEntry>, wallets: map<Id, Wallet>) {
    forall i :: 0 <= i < |ledger| ==> EntryOk(ledger[i], wallets)
  }

  ghost predicate BalancesMatch(wallets: map<Id, Wallet>, ledger: seq<LedgerEntry>) {
    forall w :: w in wallets ==> wallets[w].balance == LastBalance(ledger, w)
  }

  // ---- Ledger entries and the rows they settle ----

  predicate IsDepositOf(e: LedgerEntry, tx: Transaction, wallets: map<Id, Wallet>) {
    e.kind == Deposit && e.key == tx.key && e.amount == tx.amount && e.currency == tx.currency
    && Owns(wallets, e.walletId, tx.userId, tx.currency)
  }

  predicate IsDebitOf(e: LedgerEntry, row: Transfer, wallets: map<Id, Wallet>) {
    e.kind == TransferOut && e.key == OutKey(row.key) && e.amount == row.amount && e.currency == row.currency
    && Owns(wallets, e.walletId, row.fromUserId, row.currency)
  }

  predicate IsCreditOf(e: LedgerEntry, row: Transfer, wallets: map<Id, Wallet>) {
    e.kind == TransferIn && e.key == InKey(row.key) && e.amount == row.amount && e.currency == row.currency
    && Owns(wallets, e.walletId, row.toUserId, row.currency)
  }

  ghost predicate HasDeposit(ledger: seq<LedgerEntry>, tx: Transaction, wallets: map<Id, Wallet>) {
    exists i :: 0 <= i < |ledger| && IsDepositOf(ledger[i], tx, wallets)
  }

  ghost predicate HasDebit(ledger: seq<LedgerEntry>, row: Transfer, wallets: map<Id, Wallet>) {
    exists i :: 0 <= i < |ledger| && IsDebitOf(ledger[i], row, wallets)
  }

  ghost predicate HasCredit(ledger: seq<LedgerEntry>, row: Transfer, wallets: map<Id, Wallet>) {
    exists i :: 0 <= i < |ledger| && IsCreditOf(ledger[i], row, wallets)
  }

  ghost predicate DepositsPosted(db: Db) {
    forall t :: t in db.transactions && db.transactions[t].status == Completed ==>
      db.transactions[t].providerRef.Some? && HasDeposit(db.ledger, db.transactions[t], db.wallets)
  }

  ghost predicate TransfersPosted(db: Db) {
    forall t :: t in db.transfers && db.transfers[t].status == Completed ==>
      HasDebit(db.ledger, db.transfers[t], db.wallets) && HasCredit(db.ledger, db.transfers[t], db.wallets)
  }

  predicate Settled(db: Db, e: LedgerEntry, t: Id) {
    t in db.transactions && db.transactions[t].status != Pending && IsDepositOf(e, db.transactions[t], db.wallets)
  }

  predicate Debited(db: Db, e: LedgerEntry, t: Id) {
    t in db.transfers && db.transfers[t].status == Completed && IsDebitOf(e, db.transfers[t], db.wallets)
  }

  predicate Credited(db: Db, e: LedgerEntry, t: Id) {
    t in db.transfers && db.transfers[t].status == Completed && IsCreditOf(e, db.transfers[t], db.wallets)
  }

  /** Every ledger entry was written on behalf of some row, which is marked accordingly. */
  ghost predicate Explained(db: Db, e: LedgerEntry) {
    match e.kind
    case Deposit => exists t :: Settled(db, e, t)
    case TransferOut => exists t :: Debited(db, e, t)
    case TransferIn => exists t :: Credited(db, e, t)
  }

  ghost predicate LedgerExplained(db: Db) {
    forall i :: 0 <= i < |db.ledger| ==> Explained(db, db.ledger[i])
  }

  // ---- Transfer events ----

  predicate IsCompleted(transfers: map<Id, Transfer>, t: Id) {
    t in transfers && transfers[t].status == Completed
  }

  ghost predicate TransferEventsMatch(outbox: seq<OutboxEvent>, transfers: map<Id, Transfer>) {
    && Distinct(TransferIds(outbox))
    && (forall t :: t in TransferIds(outbox) <==> IsCompleted(transfers, t))
    && (forall i :: 0 <= i < |outbox| && outbox[i].name == TRANSFER_COMPLETED ==>
          outbox[i].aggregateId in transfers
          && outbox[i] == TransferEvent(outbox[i].aggregateId, transfers[outbox[i].aggregateId]))
  }

  ghost predicate StoreInv(db: Db) {
    && IndexesHold(db)
    && RowsOk(db)
    && EntriesOk(db.ledger, db.wallets)
    && BalancesMatch(db.wallets, db.ledger)
    && DepositsPosted(db)
    && TransfersPosted(db)
    && LedgerExplained(db)
    && TransferEventsMatch(db.outbox, db.transfers)
  }

  lemma EmptyStore()
    ensures StoreInv(EMPTY_DB)
  {
  }

  // ---- What the services guarantee when they issue an operation ----

  predicate SameRequest(a: Transaction, b: Transaction) {
    a.userId == b.userId && a.amount == b.amount && a.currency == b.currency && a.key == b.key
  }

  predicate Settleable(db: Db, walletId: Id, txId: Id, tx: Transaction) {
    && txId in db.transactions && SameRequest(db.transactions[txId], tx)
    && db.transactions[txId].providerRef.Some?
    && Owns(db.wallets, walletId, tx.userId, tx.currency)
  }

  predicate Executable(db: Db, id: Id, row: Transfer, fromId: Id, toId: Id) {
    && id in db.transfers && db.transfers[id] == row && row.status == Pending
    && Owns(db.wallets, fromId, row.fromUserId, row.currency)
    && Owns(db.wallets, toId, row.toUserId, row.currency)
    && row.fromUserId != row.toUserId
  }

  predicate OpOk(db: Db, op: Op) {
    match op
    case OpInsertWallet(_, userId, _, _) => ColonFree(userId)
    case OpCreateTransaction(_, _, amount, _, _) => amount >= 1
    case OpSetProviderRef(_, _) => true
    case OpFail(_, _) => true
    case OpSettle(walletId, txId, tx) => Settleable(db, walletId, txId, tx)
    case OpCreateTransfer(_, row) => row.amount >= 1 && row.status == Pending
    case OpExecute(id, row, fromId, toId) => Executable(db, id, row, fromId, toId)
  }

  // ---- Growth: what no operation ever undoes ----

  predicate WalletKept(a: Wallet, b: Wallet) {
    a.userId == b.userId && a.currency == b.currency && a.tag == b.tag
  }

  ghost predicate WalletsGrow(a: map<Id, Wallet>, b: map<Id, Wallet>) {
    forall w :: w in a ==> w in b && WalletKept(a[w], b[w])
  }

  predicate TransactionKept(a: Transaction, b: Transaction) {
    SameRequest(a, b) && (a.status != Pending ==> b.status != Pending) && (a.providerRef.Some? ==> b.providerRef.Some?)
  }

  ghost predicate TransactionsGrow(a: map<Id, Transaction>, b: map<Id, Transaction>) {
    forall t :: t in a ==> t in b && TransactionKept(a[t], b[t])
  }

  predicate TransferKept(a: Transfer, b: Transfer) {
    b == a || b == a.(status := Completed)
  }

  ghost predicate TransfersGrow(a: map<Id, Transfer>, b: map<Id, Transfer>) {
    forall t :: t in a ==> t in b && TransferKept(a[t], b[t])
  }

  /** Rows are never deleted, their request data never changes, a settled or failed deposit
      never becomes pending again, a completed transfer stays completed, and ledger and
      outbox only grow. */
  ghost predicate Grows(a: Db, b: Db) {
    && WalletsGrow(a.wallets, b.wallets)
    && TransactionsGrow(a.transactions, b.transactions)
    && TransfersGrow(a.transfers, b.transfers)
    && a.ledger <= b.ledger
    && a.outbox <= b.outbox
  }

  lemma GrowsReflexive(db: Db)
    ensures Grows(db, db)
  {
  }

  lemma GrowsTransitive(a: Db, b: Db, c: Db)
    requires Grows(a, b) && Grows(b, c)
    ensures Grows(a, c)
  {
  }

  lemma SettlementGrows(db: Db, walletId: Id, txId: Id, tx: Transaction)
    requires Apply(db, OpSettle(walletId, txId, tx)).Ok?
    ensures Grows(db, Apply(db, OpSettle(walletId, txId, tx)).value)
  {
  }

  lemma ExecutionGrows(db: Db, id: Id, row: Transfer, fromId: Id, toId: Id)
    requires Apply(db, OpExecute(id, row, fromId, toId)).Ok?
    ensures Grows(db, Apply(db, OpExecute(id, row, fromId, toId)).value)
  {
  }

  lemma StatementGrows(db: Db, op: Op)
    requires !op.OpSettle? && !op.OpExecute? && Apply(db, op).Ok?
    ensures Grows(db, Apply(db, op).value)
  {
  }

  lemma EveryOpGrows(db: Db, op: Op)
    requires Apply(db, op).Ok?
    ensures Grows(db, Apply(db, op).value)
  {
    hide Apply, Grows;
    match op
    case OpSettle(walletId, txId, tx) => SettlementGrows(db, walletId, txId, tx);
    case OpExecute(id, row, fromId, toId) => ExecutionGrows(db, id, row, fromId, toId);
    case _ => StatementGrows(db, op);
  }

  // ---- Preservation ----

  /** Evidence for a row survives when wallets and ledger grow. */
  lemma EvidenceKept(a: Db, b: Db)
    requires Grows(a, b)
    ensures forall tx {:trigger HasDeposit(b.ledger, tx, b.wallets)} ::
      HasDeposit(a.ledger, tx, a.wallets) ==> HasDeposit(b.ledger, tx, b.wallets)
    ensures forall row {:trigger HasDebit(b.ledger, row, b.wallets)} ::
      HasDebit(a.ledger, row, a.wallets) ==> HasDebit(b.ledger, row, b.wallets)
    ensures forall row {:trigger HasCredit(b.ledger, row, b.wallets)} ::
      HasCredit(a.ledger, row, a.wallets) ==> HasCredit(b.ledger, row, b.wallets)
  {
    forall tx | HasDeposit(a.ledger, tx, a.wallets)
      ensures HasDeposit(b.ledger, tx, b.wallets)
    {
      var i :| 0 <= i < |a.ledger| && IsDepositOf(a.ledger[i], tx, a.wallets);
      assert IsDepositOf(b.ledger[i], tx, b.wallets);
    }
    forall row | HasDebit(a.ledger, row, a.wallets)
      ensures HasDebit(b.ledger, row, b.wallets)
    {
      var i :| 0 <= i < |a.ledger| && IsDebitOf(a.ledger[i], row, a.wallets);
      assert IsDebitOf(b.ledger[i], row, b.wallets);
    }
    forall row | HasCredit(a.ledger, row, a.wallets)
      ensures HasCredit(b.ledger, row, b.wallets)
    {
      var i :| 0 <= i < |a.ledger| && IsCreditOf(a.ledger[i], row, a.wallets);
      assert IsCreditOf(b.ledger[i], row, b.wallets);
    }
  }

  lemma ExplainedKept(a: Db, b: Db, e: LedgerEntry)
    requires Grows(a, b) && Explained(a, e)
    ensures Explained(b, e)
  {
    match e.kind
    case Deposit =>
      var t :| Settled(a, e, t);
      assert Settled(b, e, t);
    case TransferOut =>
      var t :| Debited(a, e, t);
      assert Debited(b, e, t);
    case TransferIn =>
      var t :| Credited(a, e, t);
      assert Credited(b, e, t);
  }

  lemma LedgerStaysExplained(a: Db, b: Db)
    requires Grows(a, b) && LedgerExplained(a)
    requires forall i :: |a.ledger| <= i < |b.ledger| ==> Explained(b, b.ledger[i])
    ensures LedgerExplained(b)
  {
    forall i | 0 <= i < |b.ledger|
      ensures Explained(b, b.ledger[i])
    {
      if i < |a.ledger| {
        assert b.ledger[i] == a.ledger[i];
        ExplainedKept(a, b, a.ledger[i]);
      }
    }
  }
}
